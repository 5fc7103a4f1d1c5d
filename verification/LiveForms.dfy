/** Well-formed upstream streams: every item of a response announced, its parts opened, streamed in pieces,
    closed, and the item closed, the events of different items interleaved in any way. The delivery machine
    takes every such stream, at any moment of it, and remembers exactly its texts. */
module LiveForms {
  import opened Responses
  import opened Delivery
  import opened Replay
  import opened Client
  import opened Acceptance
  import opened Convergence
  import opened Turn

  // ---------- one index at a time ----------

  /** What the machine remembers of one output index. */
  datatype Local = Local(message: Option<MessageState>, reasoning: Option<ReasoningState>)

  function At(st: State, i: int): Local {
    Local(if i in st.messages then Some(st.messages[i]) else None, if i in st.reasonings then Some(st.reasonings[i]) else None)
  }

  /** An event about index `i` reads and changes nothing but what is remembered of that index. */
  lemma ApplyLocal(a: State, b: State, e: Event)
    requires Progress(e) && At(a, e.index) == At(b, e.index)
    ensures Apply(a, e).Some? <==> Apply(b, e).Some?
    ensures Apply(a, e).Some? ==>
              && At(Apply(a, e).value.st, e.index) == At(Apply(b, e).value.st, e.index)
              && forall j | j != e.index :: At(Apply(a, e).value.st, j) == At(a, j)
  {
    hide ApplyReasoning, ApplyMessage, At;
    if IsReasoningEvent(e) {
      ReasoningLocal(a, b, e);
    } else {
      MessageLocal(a, b, e);
    }
  }

  lemma ReasoningLocal(a: State, b: State, e: Event)
    requires Progress(e) && IsReasoningEvent(e) && At(a, e.index) == At(b, e.index)
    ensures ApplyReasoning(a, e).Some? <==> ApplyReasoning(b, e).Some?
    ensures ApplyReasoning(a, e).Some? ==>
              && At(ApplyReasoning(a, e).value.st, e.index) == At(ApplyReasoning(b, e).value.st, e.index)
              && forall j | j != e.index :: At(ApplyReasoning(a, e).value.st, j) == At(a, j)
  {
    hide ApplyPart, ValidateItem;
  }

  lemma MessageLocal(a: State, b: State, e: Event)
    requires Progress(e) && !IsReasoningEvent(e) && At(a, e.index) == At(b, e.index)
    ensures ApplyMessage(a, e).Some? <==> ApplyMessage(b, e).Some?
    ensures ApplyMessage(a, e).Some? ==>
              && At(ApplyMessage(a, e).value.st, e.index) == At(ApplyMessage(b, e).value.st, e.index)
              && forall j | j != e.index :: At(ApplyMessage(a, e).value.st, j) == At(a, j)
  {
    hide ApplyPart, MessageDoneMatches;
  }

  lemma ProjectionNext(i: int, history: seq<Event>, e: Event)
    requires e.OutputIndex().Some?
    ensures Projection(i, history + [e]) == if e.index == i then Projection(i, history) + [e] else Projection(i, history)
  {
    ProjectionAppend(i, history, [e]);
    assert [e][1..] == [];
    assert Projection(i, [e]) == if e.index == i then [e] else [];
    assert Projection(i, history) + [] == Projection(i, history);
  }

  /** The events of index `i` are consistent by themselves. */
  predicate RunsAt(history: seq<Event>, i: int) {
    Run(Projection(i, history)).Some?
  }

  ghost predicate Alike(history: seq<Event>, i: int)
    requires Run(history).Some?
  {
    Run(Projection(i, history)).Some? && At(Run(history).value.st, i) == At(Run(Projection(i, history)).value.st, i)
  }

  lemma StepAlike(history: seq<Event>, e: Event, i: int)
    requires Progress(e) && Run(history).Some? && Alike(history, i) && Alike(history, e.index)
    ensures Run(history + [e]).Some? ==> Alike(history + [e], i)
    ensures i == e.index && Run(Projection(i, history + [e])).Some? ==> Run(history + [e]).Some?
  {
    hide Run, Apply, At, Progress;
    ProgressIsNumbered(e);
    var own := Projection(e.index, history);
    ProjectionNext(i, history, e);
    RunAppend(history, e);
    RunAppend(own, e);
    ApplyLocal(Run(history).value.st, Run(own).value.st, e);
  }

  lemma ProgressIsNumbered(e: Event)
    requires Progress(e)
    ensures e.OutputIndex() == Some(e.index)
  {
  }

  /** A history is consistent if and only if the events of every index are, each taken by themselves; and it
      leaves of every index what these leave. */
  lemma {:induction false} RunLocal(history: seq<Event>)
    requires forall e | e in history :: Progress(e)
    ensures Run(history).Some? <==> forall i :: RunsAt(history, i)
    ensures Run(history).Some? ==> forall i :: Alike(history, i)
  {
    hide Run, Alike, Progress, Projection, RunsAt;
    if history == [] {
      NothingIsAlike();
    } else {
      var shorter, e := history[..|history| - 1], history[|history| - 1];
      assert history == shorter + [e];
      RunLocal(shorter);
      RunAppend(shorter, e);
      if Run(shorter).Some? {
        NextLocal(shorter, e);
      } else {
        var i :| !RunsAt(shorter, i);
        StaysBroken(shorter, e, i);
      }
    }
  }

  lemma NextLocal(history: seq<Event>, e: Event)
    requires Progress(e) && Run(history).Some? && forall i :: Alike(history, i)
    ensures Run(history + [e]).Some? <==> forall i :: RunsAt(history + [e], i)
    ensures Run(history + [e]).Some? ==> forall i :: Alike(history + [e], i)
  {
    hide Run, Projection, Alike, RunsAt;
    var longer := history + [e];
    ProgressIsNumbered(e);
    forall i
      ensures Run(longer).Some? ==> Alike(longer, i) && RunsAt(longer, i)
      ensures i == e.index && RunsAt(longer, i) ==> Run(longer).Some?
    {
      NextAlike(history, e, i);
    }
    assert RunsAt(longer, e.index) ==> Run(longer).Some?;
  }

  lemma NextAlike(history: seq<Event>, e: Event, i: int)
    requires Progress(e) && Run(history).Some? && Alike(history, i) && Alike(history, e.index)
    ensures Run(history + [e]).Some? ==> Alike(history + [e], i) && RunsAt(history + [e], i)
    ensures i == e.index && RunsAt(history + [e], i) ==> Run(history + [e]).Some?
  {
    StepAlike(history, e, i);
    hide Run, Projection;
  }

  lemma StaysBroken(history: seq<Event>, e: Event, i: int)
    requires Progress(e) && !RunsAt(history, i)
    ensures !RunsAt(history + [e], i)
  {
    hide Run, Projection;
    ProgressIsNumbered(e);
    ProjectionNext(i, history, e);
    RunAppend(Projection(i, history), e);
  }

  lemma NothingIsAlike()
    ensures Run([]).Some? && forall i :: RunsAt([], i) && Alike([], i)
    ensures forall i :: Projection(i, []) == []
  {
  }

  /** A beginning of a consistent history is consistent. */
  lemma {:induction false} BeginningRuns(history: seq<Event>, n: nat)
    requires n <= |history| && Run(history).Some?
    ensures Run(history[..n]).Some?
    decreases |history|
  {
    hide Apply;
    if n == |history| {
      assert history[..n] == history;
    } else {
      assert history[..|history| - 1][..n] == history[..n];
      BeginningRuns(history[..|history| - 1], n);
    }
  }

  // ---------- well-formed streams ----------

  /** A piece of a part's text with its token probabilities. */
  datatype Piece = Piece(text: string, logs: seq<Logprob>)

  function Texts(cut: seq<Piece>): string {
    if cut == [] then "" else Texts(cut[..|cut| - 1]) + cut[|cut| - 1].text
  }

  function Logs(cut: seq<Piece>): seq<Logprob> {
    if cut == [] then [] else Logs(cut[..|cut| - 1]) + cut[|cut| - 1].logs
  }

  /** A part that can be streamed: it has a type, and where it streams as text it has one. */
  predicate Streamable(ch: Channel, part: Part) {
    && part.Part? && part.kind.Some?
    && (ch == Summary ==> part.kind == Some("summary_text") && part.text.Some?)
    && (ch == Content && part.kind == Some("output_text") ==> part.text.Some? && !part.logs.LogsOther?)
  }

  /** The pieces are all of the part's text, and of its probabilities. */
  predicate Covers(ch: Channel, part: Part, cut: seq<Piece>) {
    TextPart(ch, part) ==> Texts(cut) == TextOf(part) && (ch == Content ==> Logs(cut) == part.Logs().Entries())
  }

  function LiveDeltas(ch: Channel, i: int, id: string, k: int, cut: seq<Piece>): seq<Event> {
    if cut == [] then []
    else
      var last := cut[|cut| - 1];
      LiveDeltas(ch, i, id, k, cut[..|cut| - 1]) + [TextDelta(ch, i, k, id, Some(last.text), LogsList(last.logs))]
  }

  function LivePart(ch: Channel, i: int, id: string, k: int, part: Part, cut: seq<Piece>): seq<Event> {
    [PartAdded(ch, i, k, id, Opening(ch, part))]
    + (if TextPart(ch, part) then LiveDeltas(ch, i, id, k, cut) + [TextDone(ch, i, k, id, Some(TextOf(part)), LogsOf(ch, part))] else [])
    + [PartDone(ch, i, k, id, part)]
  }

  function StreamedParts(ch: Channel, i: int, id: string, parts: seq<Part>, cuts: seq<seq<Piece>>, n: nat): seq<Event>
    requires n <= |parts| == |cuts|
  {
    if n == 0 then [] else StreamedParts(ch, i, id, parts, cuts, n - 1) + LivePart(ch, i, id, n - 1, parts[n - 1], cuts[n - 1])
  }

  predicate Streamed(item: Item, cuts: seq<seq<Piece>>) {
    && Streams(item) && item.Id() != "" && |cuts| == |PartsOf(item)|
    && (item.ReasoningItem? ==> item.summary.Some?)
    && forall k | 0 <= k < |cuts| :: Streamable(ChannelOf(item), PartsOf(item)[k]) && Covers(ChannelOf(item), PartsOf(item)[k], cuts[k])
  }

  /** Everything an upstream says of one message or reasoning item. */
  function LiveItem(i: int, item: Item, cuts: seq<seq<Piece>>): seq<Event>
    requires Streams(item) && |cuts| == |PartsOf(item)|
  {
    [ItemAdded(i, Announced(item, true))]
    + StreamedParts(ChannelOf(item), i, item.Id(), PartsOf(item), cuts, |cuts|)
    + [ItemDone(i, item)]
  }

  // ---------- one item ----------

  /** The state of a part whose text so far is this. */
  function InPiece(ch: Channel, part: Part, cut: seq<Piece>): PartState {
    PartState(part.Kind(), Texts(cut), if ch == Content then Logs(cut) else [], false, false)
  }

  /** The state of a part that has been streamed to its end. */
  function Complete(ch: Channel, part: Part): PartState {
    if TextPart(ch, part) then
      PartState(part.Kind(), TextOf(part), if ch == Content then part.Logs().Entries() else [], true, true)
    else PartState(part.Kind(), "", [], false, true)
  }

  function CompleteParts(ch: Channel, parts: seq<Part>, n: nat): map<int, PartState>
    requires n <= |parts|
  {
    map k: int | 0 <= k < n :: Complete(ch, parts[k])
  }

  /** A state in which one item is open. */
  function OpenItem(ch: Channel, i: int, id: string, parts: map<int, PartState>): State {
    if ch == Content then State(map[i := MessageState(id, parts, false)], map[])
    else State(map[], map[i := ReasoningState(id, parts, false, None)])
  }

  ghost predicate RunsTo(history: seq<Event>, st: State) {
    Run(history).Some? && Run(history).value.st == st
  }

  lemma PartEventRuns(history: seq<Event>, ch: Channel, i: int, id: string, parts: map<int, PartState>, e: Event, after: map<int, PartState>)
    requires RunsTo(history, OpenItem(ch, i, id, parts))
    requires e.IsPartEvent() && e.ch == ch && e.index == i && e.itemId == id
    requires ApplyPart(parts, e).Some? && ApplyPart(parts, e).value.0 == after
    ensures RunsTo(history + [e], OpenItem(ch, i, id, after))
  {
    hide Run, ApplyPart;
    RunAppend(history, e);
    var st := OpenItem(ch, i, id, parts);
    if ch == Content {
      assert st.messages[i := MessageState(id, after, false)] == OpenItem(ch, i, id, after).messages;
    } else {
      assert st.reasonings[i := ReasoningState(id, after, false, None)] == OpenItem(ch, i, id, after).reasonings;
    }
  }

  lemma {:induction false} DeltasRun(history: seq<Event>, ch: Channel, i: int, id: string, before: map<int, PartState>, k: int, part: Part,
      cut: seq<Piece>)
    requires TextPart(ch, part) && Streamable(ch, part)
    requires RunsTo(history, OpenItem(ch, i, id, before[k := InPiece(ch, part, [])]))
    ensures RunsTo(history + LiveDeltas(ch, i, id, k, cut), OpenItem(ch, i, id, before[k := InPiece(ch, part, cut)]))
  {
    if cut == [] {
      assert history + [] == history;
    } else {
      var shorter, last := cut[..|cut| - 1], cut[|cut| - 1];
      var e := TextDelta(ch, i, k, id, Some(last.text), LogsList(last.logs));
      DeltasRun(history, ch, i, id, before, k, part, shorter);
      hide RunsTo, OpenItem;
      var parts := before[k := InPiece(ch, part, shorter)];
      assert ApplyText(InPiece(ch, part, shorter), e) == Some(InPiece(ch, part, cut));
      assert parts[k := InPiece(ch, part, cut)] == before[k := InPiece(ch, part, cut)];
      PartEventRuns(history + LiveDeltas(ch, i, id, k, shorter), ch, i, id, parts, e, before[k := InPiece(ch, part, cut)]);
      assert (history + LiveDeltas(ch, i, id, k, shorter)) + [e] == history + (LiveDeltas(ch, i, id, k, shorter) + [e]);
    }
  }

  /** The state with the parts before `k` complete, and `k` in the given state. */
  function PartsWith(ch: Channel, parts: seq<Part>, k: nat, p: PartState): map<int, PartState>
    requires k < |parts|
  {
    CompleteParts(ch, parts, k)[k := p]
  }

  lemma PartOpens(history: seq<Event>, ch: Channel, i: int, id: string, parts: seq<Part>, k: nat)
    requires k < |parts| && Streamable(ch, parts[k]) && RunsTo(history, OpenItem(ch, i, id, CompleteParts(ch, parts, k)))
    ensures RunsTo(history + [PartAdded(ch, i, k, id, Opening(ch, parts[k]))],
                   OpenItem(ch, i, id, PartsWith(ch, parts, k, InPiece(ch, parts[k], []))))
  {
    hide RunsTo, OpenItem, Complete;
    var before := CompleteParts(ch, parts, k);
    CountParts(ch, parts, k);
    if k > 0 {
      assert before[k - 1] == Complete(ch, parts[k - 1]);
      CompleteIsDone(ch, parts[k - 1]);
    }
    PartEventRuns(history, ch, i, id, before, PartAdded(ch, i, k, id, Opening(ch, parts[k])), PartsWith(ch, parts, k, InPiece(ch, parts[k], [])));
  }

  lemma CompleteIsDone(ch: Channel, part: Part)
    ensures Complete(ch, part).done
  {
  }

  lemma {:induction false} CountParts(ch: Channel, parts: seq<Part>, n: nat)
    requires n <= |parts|
    ensures |CompleteParts(ch, parts, n)| == n
  {
    hide Complete;
    if n > 0 {
      CountParts(ch, parts, n - 1);
      assert CompleteParts(ch, parts, n) == CompleteParts(ch, parts, n - 1)[n - 1 := Complete(ch, parts[n - 1])];
    } else {
      assert CompleteParts(ch, parts, n) == map[];
    }
  }

  lemma TextCloses(history: seq<Event>, ch: Channel, i: int, id: string, parts: seq<Part>, k: nat, cut: seq<Piece>)
    requires k < |parts| && TextPart(ch, parts[k]) && Streamable(ch, parts[k]) && Covers(ch, parts[k], cut)
    requires RunsTo(history, OpenItem(ch, i, id, PartsWith(ch, parts, k, InPiece(ch, parts[k], cut))))
    ensures RunsTo(history + [TextDone(ch, i, k, id, Some(TextOf(parts[k])), LogsOf(ch, parts[k]))],
                   OpenItem(ch, i, id, PartsWith(ch, parts, k, Complete(ch, parts[k]).(done := false))))
  {
    hide RunsTo, OpenItem;
    var before := PartsWith(ch, parts, k, InPiece(ch, parts[k], cut));
    var after := PartsWith(ch, parts, k, Complete(ch, parts[k]).(done := false));
    var e := TextDone(ch, i, k, id, Some(TextOf(parts[k])), LogsOf(ch, parts[k]));
    assert ApplyText(InPiece(ch, parts[k], cut), e) == Some(Complete(ch, parts[k]).(done := false));
    assert before[k := Complete(ch, parts[k]).(done := false)] == after;
    PartEventRuns(history, ch, i, id, before, e, after);
  }

  lemma PartCloses(history: seq<Event>, ch: Channel, i: int, id: string, parts: seq<Part>, k: nat, p: PartState)
    requires k < |parts| && Streamable(ch, parts[k]) && p == Complete(ch, parts[k]).(done := false)
    requires RunsTo(history, OpenItem(ch, i, id, PartsWith(ch, parts, k, p)))
    ensures RunsTo(history + [PartDone(ch, i, k, id, parts[k])], OpenItem(ch, i, id, CompleteParts(ch, parts, k + 1)))
  {
    hide RunsTo, OpenItem;
    var before, after := PartsWith(ch, parts, k, p), CompleteParts(ch, parts, k + 1);
    var e := PartDone(ch, i, k, id, parts[k]);
    assert ApplyText(p, e) == Some(Complete(ch, parts[k]));
    assert before[k := Complete(ch, parts[k])] == after;
    PartEventRuns(history, ch, i, id, before, e, after);
  }

  lemma PartRuns(history: seq<Event>, ch: Channel, i: int, id: string, parts: seq<Part>, k: nat, cut: seq<Piece>)
    requires k < |parts| && Streamable(ch, parts[k]) && Covers(ch, parts[k], cut)
    requires RunsTo(history, OpenItem(ch, i, id, CompleteParts(ch, parts, k)))
    ensures RunsTo(history + LivePart(ch, i, id, k, parts[k], cut), OpenItem(ch, i, id, CompleteParts(ch, parts, k + 1)))
  {
    hide RunsTo, OpenItem, CompleteParts, Opening, LiveDeltas;
    var added := [PartAdded(ch, i, k, id, Opening(ch, parts[k]))];
    var closing := [PartDone(ch, i, k, id, parts[k])];
    PartOpens(history, ch, i, id, parts, k);
    if TextPart(ch, parts[k]) {
      var deltas, done := LiveDeltas(ch, i, id, k, cut), [TextDone(ch, i, k, id, Some(TextOf(parts[k])), LogsOf(ch, parts[k]))];
      DeltasRun(history + added, ch, i, id, CompleteParts(ch, parts, k), k, parts[k], cut);
      TextCloses(history + added + deltas, ch, i, id, parts, k, cut);
      PartCloses(history + added + deltas + done, ch, i, id, parts, k, Complete(ch, parts[k]).(done := false));
      assert history + added + deltas + done + closing == history + (added + (deltas + done) + closing);
    } else {
      PartCloses(history + added, ch, i, id, parts, k, InPiece(ch, parts[k], []));
      assert history + added + closing == history + (added + [] + closing);
    }
  }

  lemma {:induction false} PartsRun(history: seq<Event>, ch: Channel, i: int, id: string, parts: seq<Part>, cuts: seq<seq<Piece>>, n: nat)
    requires n <= |parts| == |cuts| && forall k | 0 <= k < n :: Streamable(ch, parts[k]) && Covers(ch, parts[k], cuts[k])
    requires RunsTo(history, OpenItem(ch, i, id, map[]))
    ensures RunsTo(history + StreamedParts(ch, i, id, parts, cuts, n), OpenItem(ch, i, id, CompleteParts(ch, parts, n)))
  {
    hide RunsTo, OpenItem, LivePart, Streamable, Covers;
    if n == 0 {
      assert CompleteParts(ch, parts, 0) == map[] && history + [] == history;
    } else {
      PartsRun(history, ch, i, id, parts, cuts, n - 1);
      var before := StreamedParts(ch, i, id, parts, cuts, n - 1);
      PartRuns(history + before, ch, i, id, parts, n - 1, cuts[n - 1]);
      var part := LivePart(ch, i, id, n - 1, parts[n - 1], cuts[n - 1]);
      assert history + before + part == history + (before + part);
    }
  }

  /** What remains of an item when its stream has ended: exactly its id and the texts of its parts. */
  function Finished(i: int, item: Item): State
    requires Streams(item)
  {
    var parts := CompleteParts(ChannelOf(item), PartsOf(item), |PartsOf(item)|);
    if item.MessageItem? then State(map[i := MessageState(item.id, parts, true)], map[])
    else State(map[], map[i := ReasoningState(item.id, parts, true, item.summary)])
  }

  lemma ItemBegins(i: int, item: Item)
    requires Streams(item) && item.Id() != ""
    ensures RunsTo([ItemAdded(i, Announced(item, true))], OpenItem(ChannelOf(item), i, item.Id(), map[]))
  {
    var e := ItemAdded(i, Announced(item, true));
    assert [e][..0] == [];
    assert START.messages[i := MessageState(item.Id(), map[], false)] == map[i := MessageState(item.Id(), map[], false)];
    assert START.reasonings[i := ReasoningState(item.Id(), map[], false, None)] == map[i := ReasoningState(item.Id(), map[], false, None)];
  }

  lemma ItemEnds(history: seq<Event>, i: int, item: Item, cuts: seq<seq<Piece>>)
    requires Streamed(item, cuts)
    requires RunsTo(history, OpenItem(ChannelOf(item), i, item.Id(), CompleteParts(ChannelOf(item), PartsOf(item), |PartsOf(item)|)))
    ensures RunsTo(history + [ItemDone(i, item)], Finished(i, item))
  {
    hide Run, CompleteParts, Apply;
    RunAppend(history, ItemDone(i, item));
    var parts := PartsOf(item);
    var complete := CompleteParts(ChannelOf(item), parts, |parts|);
    CountParts(ChannelOf(item), parts, |parts|);
    AllMatch(ChannelOf(item), parts);
    if item.MessageItem? {
      MessageEnds(i, item, complete);
    } else {
      ReasoningEnds(i, item, complete);
    }
  }

  lemma AllMatch(ch: Channel, parts: seq<Part>)
    requires forall k | 0 <= k < |parts| :: Streamable(ch, parts[k])
    ensures forall k | k in CompleteParts(ch, parts, |parts|) ::
              var p := CompleteParts(ch, parts, |parts|)[k];
              && p.done
              && (ch == Content ==> DonePartMatches(p, k, parts) && PartAccepted(p, k, parts))
              && (ch == Summary ==> SummaryMatches(p, k, parts))
  {
    hide DonePartMatches, PartAccepted, SummaryMatches, Complete, Streamable;
    forall k | 0 <= k < |parts|
      ensures Complete(ch, parts[k]).done
      ensures ch == Content ==> DonePartMatches(Complete(ch, parts[k]), k, parts) && PartAccepted(Complete(ch, parts[k]), k, parts)
      ensures ch == Summary ==> SummaryMatches(Complete(ch, parts[k]), k, parts)
    {
      CompleteMatches(ch, parts, k);
    }
  }

  lemma MessageEnds(i: int, item: Item, complete: map<int, PartState>)
    requires item.MessageItem? && |complete| == |item.content| && forall k | k in complete :: DonePartMatches(complete[k], k, item.content)
    ensures Apply(OpenItem(Content, i, item.id, complete), ItemDone(i, item))
            == Some(Applied(State(map[i := MessageState(item.id, complete, true)], map[]), Some(ItemDone(i, item))))
  {
    hide DonePartMatches;
    var st := OpenItem(Content, i, item.id, complete);
    assert st.messages[i := MessageState(item.id, complete, true)] == map[i := MessageState(item.id, complete, true)];
  }

  lemma ReasoningEnds(i: int, item: Item, complete: map<int, PartState>)
    requires item.ReasoningItem? && item.summary.Some?
    requires forall k | k in complete :: complete[k].done && SummaryMatches(complete[k], k, item.summary.value)
    ensures Apply(OpenItem(Summary, i, item.id, complete), ItemDone(i, item))
            == Some(Applied(State(map[], map[i := ReasoningState(item.id, complete, true, item.summary)]), None))
  {
    hide SummaryMatches;
    var st := OpenItem(Summary, i, item.id, complete);
    assert st.reasonings[i := ReasoningState(item.id, complete, true, item.summary)]
           == map[i := ReasoningState(item.id, complete, true, item.summary)];
  }

  lemma CompleteMatches(ch: Channel, parts: seq<Part>, k: int)
    requires 0 <= k < |parts| && Streamable(ch, parts[k])
    ensures Complete(ch, parts[k]).done
    ensures ch == Content ==> DonePartMatches(Complete(ch, parts[k]), k, parts) && PartAccepted(Complete(ch, parts[k]), k, parts)
    ensures ch == Summary ==> SummaryMatches(Complete(ch, parts[k]), k, parts)
  {
  }

  lemma ItemRuns(i: int, item: Item, cuts: seq<seq<Piece>>)
    requires Streamed(item, cuts)
    ensures RunsTo(LiveItem(i, item, cuts), Finished(i, item))
  {
    hide RunsTo, OpenItem, StreamedParts, CompleteParts, Streamable, Covers, Finished;
    var ch, parts := ChannelOf(item), PartsOf(item);
    var added := [ItemAdded(i, Announced(item, true))];
    ItemBegins(i, item);
    PartsRun(added, ch, i, item.Id(), parts, cuts, |parts|);
    ItemEnds(added + StreamedParts(ch, i, item.Id(), parts, cuts, |parts|), i, item, cuts);
  }

  // ---------- acceptance ----------

  /** The terminal item continues what is remembered of its index. */
  ghost predicate Fits(st: State, i: int, item: Item) {
    && (i in st.reasonings ==> ValidateItem(st.reasonings[i], item))
    && (i in st.messages ==> MessageAccepted(st.messages[i], item))
  }

  lemma FinishedFits(i: int, item: Item, cuts: seq<seq<Piece>>)
    requires Streamed(item, cuts)
    ensures Fits(Finished(i, item), i, item)
  {
    hide PartAccepted, SummaryMatches, CompleteParts, Streamable, Covers;
    CountParts(ChannelOf(item), PartsOf(item), |PartsOf(item)|);
    AllMatch(ChannelOf(item), PartsOf(item));
  }

  /** What continues a later state continues an earlier one. */
  lemma FitsBefore(st: State, e: Event, item: Item)
    requires Apply(st, e).Some? && Fits(Apply(st, e).value.st, e.index, item)
    ensures Fits(st, e.index, item)
  {
    hide Opening;
    if e.IsPartEvent() {
      if e.ch == Content {
        PartsBefore(Content, st.messages[e.index].parts, e);
      } else {
        PartsBefore(Summary, st.reasonings[e.index].summaries, e);
      }
    }
    hide ApplyPart, PartAccepted, SummaryMatches;
    if e.IsPartEvent() && e.ch == Content {
      MessageFitsBefore(st.messages[e.index], Apply(st, e).value.st.messages[e.index], item);
    } else if e.IsPartEvent() {
      SummaryFitsBefore(st.reasonings[e.index], Apply(st, e).value.st.reasonings[e.index], item);
    }
  }

  /** An earlier state of a part. */
  predicate Earlier(p: PartState, q: PartState) {
    && p.kind == q.kind && p.text <= q.text && p.logs <= q.logs
    && (p.textDone ==> q.textDone && p.text == q.text && p.logs == q.logs)
  }

  lemma PartsBefore(ch: Channel, parts: map<int, PartState>, e: Event)
    requires e.IsPartEvent() && ApplyPart(parts, e).Some?
    ensures var after := ApplyPart(parts, e).value.0;
            forall k | k in parts :: k in after && Earlier(parts[k], after[k])
  {
    hide Opening;
  }

  lemma MessageFitsBefore(m: MessageState, n: MessageState, item: Item)
    requires n.id == m.id && !m.done && MessageAccepted(n, item)
    requires forall k | k in m.parts :: k in n.parts && Earlier(m.parts[k], n.parts[k])
    ensures MessageAccepted(m, item)
  {
    hide Earlier, PartAccepted;
    forall k | k in m.parts ensures PartAccepted(m.parts[k], k, item.content) {
      AcceptedBefore(m.parts[k], n.parts[k], k, item.content);
    }
  }

  lemma AcceptedBefore(p: PartState, q: PartState, k: int, content: seq<Part>)
    requires Earlier(p, q) && PartAccepted(q, k, content)
    ensures PartAccepted(p, k, content)
  {
  }

  lemma SummaryFitsBefore(r: ReasoningState, s: ReasoningState, item: Item)
    requires s.id == r.id && !r.upstreamDone && ValidateItem(s, item)
    requires forall k | k in r.summaries :: k in s.summaries && Earlier(r.summaries[k], s.summaries[k])
    ensures ValidateItem(r, item)
  {
  }

  lemma {:induction false} BeginningFits(history: seq<Event>, n: nat, i: int, item: Item)
    requires n <= |history| && Run(history).Some? && Fits(Run(history).value.st, i, item)
    requires forall e | e in history :: Progress(e) && e.index == i
    ensures Run(history[..n]).Some? && Fits(Run(history[..n]).value.st, i, item)
    decreases |history|
  {
    hide Apply, Fits, Progress;
    if n == |history| {
      assert history[..n] == history;
    } else {
      var shorter := history[..|history| - 1];
      assert shorter[..n] == history[..n];
      FitsBefore(Run(shorter).value.st, history[|history| - 1], item);
      BeginningFits(shorter, n, i, item);
    }
  }

  // ---------- whole streams ----------

  /** At every index the stream has said a beginning of what there is to say about the item of the response
      there; nothing is said of items that hold neither text nor reasoning. */
  ghost predicate Begun(history: seq<Event>, output: seq<Item>, cuts: int -> seq<seq<Piece>>) {
    && (forall i | 0 <= i < |output| && Streams(output[i]) :: Streamed(output[i], cuts(i)))
    && (forall e | e in history :: e.OutputIndex().Some?)
    && forall i :: Projection(i, history) <= LiveAt(i, output, cuts)
  }

  function LiveAt(i: int, output: seq<Item>, cuts: int -> seq<seq<Piece>>): seq<Event> {
    if 0 <= i < |output| && Streams(output[i]) && |cuts(i)| == |PartsOf(output[i])| then LiveItem(i, output[i], cuts(i)) else []
  }

  lemma LiveItemIsProgress(i: int, item: Item, cuts: seq<seq<Piece>>)
    requires Streams(item) && |cuts| == |PartsOf(item)|
    ensures forall e | e in LiveItem(i, item, cuts) :: Progress(e) && e.index == i
  {
    hide StreamedParts;
    PartsAreProgress(ChannelOf(item), i, item.Id(), PartsOf(item), cuts, |cuts|);
  }

  lemma {:induction false} PartsAreProgress(ch: Channel, i: int, id: string, parts: seq<Part>, cuts: seq<seq<Piece>>, n: nat)
    requires n <= |parts| == |cuts|
    ensures forall e | e in StreamedParts(ch, i, id, parts, cuts, n) :: Progress(e) && e.index == i
  {
    hide LivePart;
    if n > 0 {
      PartsAreProgress(ch, i, id, parts, cuts, n - 1);
      PartIsProgress(ch, i, id, n - 1, parts[n - 1], cuts[n - 1]);
    }
  }

  lemma PartIsProgress(ch: Channel, i: int, id: string, k: int, part: Part, cut: seq<Piece>)
    ensures forall e | e in LivePart(ch, i, id, k, part, cut) :: Progress(e) && e.index == i
  {
    hide TextPart, Opening, TextOf, LogsOf, LiveDeltas;
    DeltasAreProgress(ch, i, id, k, cut);
  }

  lemma {:induction false} DeltasAreProgress(ch: Channel, i: int, id: string, k: int, cut: seq<Piece>)
    ensures forall e | e in LiveDeltas(ch, i, id, k, cut) :: Progress(e) && e.index == i
  {
    if cut != [] {
      DeltasAreProgress(ch, i, id, k, cut[..|cut| - 1]);
    }
  }

  lemma {:induction false} OwnEvents(i: int, history: seq<Event>, e: Event)
    requires e in history && e.OutputIndex() == Some(i)
    ensures e in Projection(i, history)
  {
    if e != history[0] {
      OwnEvents(i, history[1..], e);
    }
  }

  lemma BegunIsProgress(history: seq<Event>, output: seq<Item>, cuts: int -> seq<seq<Piece>>)
    requires Begun(history, output, cuts)
    ensures forall e | e in history :: Progress(e)
  {
    hide Projection, LiveItem, Streamed, Progress;
    forall e | e in history ensures Progress(e) {
      var i := e.OutputIndex().value;
      OwnEvents(i, history, e);
      assert Projection(i, history) <= LiveAt(i, output, cuts);
      assert e in LiveAt(i, output, cuts);
      LiveItemIsProgress(i, output[i], cuts(i));
    }
  }

  /** Of one index: what has been said of it runs, and the terminal item continues it. */
  lemma IndexRuns(history: seq<Event>, output: seq<Item>, cuts: int -> seq<seq<Piece>>, i: int)
    requires Begun(history, output, cuts)
    ensures Run(Projection(i, history)).Some?
    ensures var st := Run(Projection(i, history)).value.st;
            if 0 <= i < |output| && Streams(output[i]) then Fits(st, i, output[i]) else i !in st.messages && i !in st.reasonings
  {
    hide Fits, LiveItem, Streamed, Finished;
    var own, all := Projection(i, history), LiveAt(i, output, cuts);
    assert own <= all;
    if 0 <= i < |output| && Streams(output[i]) {
      assert |cuts(i)| == |PartsOf(output[i])| by {
        StreamedLength(output[i], cuts(i));
      }
      ItemRuns(i, output[i], cuts(i));
      FinishedFits(i, output[i], cuts(i));
      LiveItemIsProgress(i, output[i], cuts(i));
      BeginningFits(all, |own|, i, output[i]);
      assert all[..|own|] == own;
    }
  }

  lemma StreamedLength(item: Item, cuts: seq<seq<Piece>>)
    requires Streamed(item, cuts)
    ensures Streams(item) && |cuts| == |PartsOf(item)|
  {
  }

  /** The delivery machine takes every well-formed stream of a response, however its texts are cut into deltas
      and its items interleaved, up to any moment; and the response is accepted for it. */
  lemma LiveAccepted(history: seq<Event>, output: seq<Item>, cuts: int -> seq<seq<Piece>>)
    requires Begun(history, output, cuts)
    ensures Run(history).Some? && ItemsAccepted(Run(history).value.st, output)
  {
    hide Projection, Run, Begun, Fits, Progress, ValidateItem, MessageAccepted;
    BegunIsProgress(history, output, cuts);
    forall i ensures RunsAt(history, i) {
      IndexRuns(history, output, cuts, i);
    }
    RunLocal(history);
    var st := Run(history).value.st;
    forall i
      ensures i in st.reasonings ==> 0 <= i < |output| && ValidateItem(st.reasonings[i], output[i])
      ensures i in st.messages ==> 0 <= i < |output| && MessageAccepted(st.messages[i], output[i])
    {
      IndexRuns(history, output, cuts, i);
      assert Alike(history, i);
      SameFits(history, output, i);
    }
  }

  lemma SameFits(history: seq<Event>, output: seq<Item>, i: int)
    requires Run(history).Some? && Alike(history, i)
    requires var st := Run(Projection(i, history)).value.st;
             if 0 <= i < |output| && Streams(output[i]) then Fits(st, i, output[i]) else i !in st.messages && i !in st.reasonings
    ensures var st := Run(history).value.st;
            && (i in st.reasonings ==> 0 <= i < |output| && ValidateItem(st.reasonings[i], output[i]))
            && (i in st.messages ==> 0 <= i < |output| && MessageAccepted(st.messages[i], output[i]))
  {
    hide Run, Projection, ValidateItem, MessageAccepted;
    var a, b := Run(history).value.st, Run(Projection(i, history)).value.st;
    assert At(a, i) == At(b, i);
    assert i in a.messages <==> i in b.messages;
    assert i in a.reasonings <==> i in b.reasonings;
  }

  /** At the end of the stream the machine remembers exactly the messages and reasoning items of the response,
      each with the texts, and the probabilities, of its own parts. */
  lemma LiveRemembered(history: seq<Event>, output: seq<Item>, cuts: int -> seq<seq<Piece>>, i: int)
    requires Begun(history, output, cuts) && Projection(i, history) == LiveAt(i, output, cuts)
    ensures Run(history).Some?
    ensures At(Run(history).value.st, i) ==
              if 0 <= i < |output| && Streams(output[i]) then At(Finished(i, output[i]), i) else Local(None, None)
  {
    hide Projection, Progress, LiveItem, Finished, Streamed;
    LiveAccepted(history, output, cuts);
    BegunIsProgress(history, output, cuts);
    RunLocal(history);
    assert Alike(history, i);
    if 0 <= i < |output| && Streams(output[i]) {
      StreamedLength(output[i], cuts(i));
      ItemRuns(i, output[i], cuts(i));
    }
  }

  /** The items of a response streamed one after the other. */
  function StreamOf(output: seq<Item>, cuts: int -> seq<seq<Piece>>, n: nat): seq<Event>
    requires n <= |output|
  {
    if n == 0 then [] else StreamOf(output, cuts, n - 1) + LiveAt(n - 1, output, cuts)
  }

  lemma {:induction false} StreamProjected(output: seq<Item>, cuts: int -> seq<seq<Piece>>, n: nat, i: int)
    requires n <= |output|
    ensures Projection(i, StreamOf(output, cuts, n)) == if 0 <= i < n then LiveAt(i, output, cuts) else []
    ensures forall e | e in StreamOf(output, cuts, n) :: e.OutputIndex().Some?
  {
    hide LiveAt, Projection, Event.OutputIndex;
    if n == 0 {
      NothingIsAlike();
    } else {
      StreamProjected(output, cuts, n - 1, i);
      ProjectionAppend(i, StreamOf(output, cuts, n - 1), LiveAt(n - 1, output, cuts));
      LiveAtIsOwn(n - 1, output, cuts);
      ProjectionOf(i, LiveAt(n - 1, output, cuts), i == n - 1);
      assert i < n - 1 ==> Projection(i, StreamOf(output, cuts, n - 1)) + [] == Projection(i, StreamOf(output, cuts, n - 1));
    }
  }

  lemma LiveAtIsOwn(i: int, output: seq<Item>, cuts: int -> seq<seq<Piece>>)
    ensures forall e | e in LiveAt(i, output, cuts) :: e.OutputIndex() == Some(i)
  {
    hide LiveItem, Progress, Event.OutputIndex;
    if 0 <= i < |output| && Streams(output[i]) && |cuts(i)| == |PartsOf(output[i])| {
      LiveItemIsProgress(i, output[i], cuts(i));
      forall e | e in LiveItem(i, output[i], cuts(i)) ensures e.OutputIndex() == Some(i) {
        ProgressIsNumbered(e);
      }
    }
  }

  /** Such a stream is well-formed and complete. */
  lemma StreamIsBegun(output: seq<Item>, cuts: int -> seq<seq<Piece>>)
    requires forall i | 0 <= i < |output| && Streams(output[i]) :: Streamed(output[i], cuts(i))
    ensures Begun(StreamOf(output, cuts, |output|), output, cuts)
    ensures forall i :: Projection(i, StreamOf(output, cuts, |output|)) == LiveAt(i, output, cuts)
  {
    hide Projection, LiveItem, Streamed, StreamOf;
    forall i ensures Projection(i, StreamOf(output, cuts, |output|)) == LiveAt(i, output, cuts) {
      StreamProjected(output, cuts, |output|, i);
    }
    StreamProjected(output, cuts, |output|, 0);
  }

  /** A turn over a well-formed stream, in either mode: it is fed without an error, commits exactly when it is
      incremental and some text has come, has then shown the frames of what was said, and every response with
      the upstream's id and this output is accepted for it. */
  lemma LiveTurn(buffered: bool, id: string, us: seq<Upstream>, output: seq<Item>, cuts: int -> seq<seq<Piece>>, r: Response)
    requires id != "" && us != [] && us[0] == Meta(id) && Smooth(id, us) && Begun(Outputs(us), output, cuts)
    requires r.id == id && r.output == output
    ensures var f := Feed(buffered, us);
            && FedConsistently(f, buffered, id, Outputs(us)) && FinalAccepted(f.n, r) && Run(Outputs(us)).Some?
            && f.sent == (if !buffered && HasDelta(Outputs(us)) then Run(Outputs(us)).value.frames else [])
  {
    hide Run, Smooth, Begun, HasDelta, Feed, ItemsAccepted, Outputs;
    LiveAccepted(Outputs(us), output, cuts);
    SmoothFeed(buffered, id, us);
    FeedForwardsItsHistory(buffered, us);
  }
}
