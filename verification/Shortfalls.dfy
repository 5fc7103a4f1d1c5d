/** Two upstream streams that the plugin accepts although what the client assembles differs from the terminal
    response: token probabilities that no delta carries, only the closing text events, and closing events
    that are not those of the terminal response. */
module Shortfalls {
  import opened Responses
  import opened Delivery
  import opened Client
  import opened Acceptance
  import opened Convergence
  import opened Turn
  import opened Snapshots
  import opened Probabilities

  function Text(text: string, logs: LogField): Part {
    Part(Some("output_text"), Some(text), logs, "")
  }

  function Refusal(reason: string): Part {
    Part(Some("refusal"), None, LogsAbsent, reason)
  }

  /** One more event of a history, and what it makes of the state. */
  lemma OneMore(history: seq<Event>, ran: Ran, e: Event, st: State, frame: Option<Event>)
    requires Run(history) == Some(ran) && Apply(ran.st, e) == Some(Applied(st, frame))
    ensures Run(history + [e]) == Some(Ran(st, ran.frames + FrameSeq(frame)))
  {
    hide Apply;
    RunAppend(history, e);
  }

  function InProgressAt(parts: map<int, PartState>, done: bool): State {
    State(map[0 := MessageState("m", parts, done)], map[])
  }

  /** One more event about the parts of the message. */
  lemma OneMorePart(history: seq<Event>, frames: seq<Event>, parts: map<int, PartState>, e: Event, after: map<int, PartState>)
    requires Run(history) == Some(Ran(InProgressAt(parts, false), frames))
    requires e.IsPartEvent() && e.ch == Content && e.index == 0 && e.itemId == "m" && ApplyPart(parts, e) == Some((after, e))
    ensures Run(history + [e]) == Some(Ran(InProgressAt(after, false), frames + [e]))
  {
    hide Run, ApplyPart;
    var st := InProgressAt(parts, false);
    assert st.messages[0 := MessageState("m", after, false)] == InProgressAt(after, false).messages;
    OneMore(history, Ran(st, frames), e, InProgressAt(after, false), Some(e));
  }

  const ANNOUNCED := ItemAdded(0, MessageItem("m", "in_progress", [], "live"))

  lemma AnnouncedRuns()
    ensures Run([ANNOUNCED]) == Some(Ran(InProgressAt(map[], false), [ANNOUNCED]))
  {
    assert [ANNOUNCED][..0] == [];
    assert [] + [ANNOUNCED] == [ANNOUNCED];
  }

  lemma FirstDelta()
    ensures PartState("output_text", "" + "a", [] + [], false, false) == PartState("output_text", "a", [], false, false)
  {
    var none: seq<Logprob> := [];
    assert "" + "a" == "a" && none + none == none;
  }

  // ---------- token probabilities ----------

  const TEXT_OPEN := PartAdded(Content, 0, 0, "m", Text("", LogsAbsent))
  const TEXT_DELTA := TextDelta(Content, 0, 0, "m", Some("a"), LogsList([]))
  const UNLOGGED := [ANNOUNCED] + [TEXT_OPEN] + [TEXT_DELTA]

  /** The text is streamed without probabilities; a second, empty part is not streamed at all. */
  const LOGGED := Response("r", "completed", [MessageItem("m", "completed", [Text("a", LogsList(["p"])), Text("", LogsList(["q"]))], "final")], "")

  lemma UnloggedRuns()
    ensures Run(UNLOGGED)
            == Some(Ran(InProgressAt(map[0 := PartState("output_text", "a", [], false, false)], false), UNLOGGED))
  {
    hide Run;
    AnnouncedRuns();
    var begun := map[0 := PartState("output_text", "", [], false, false)];
    var texted := map[0 := PartState("output_text", "a", [], false, false)];
    assert map[][0 := PartState("output_text", "", [], false, false)] == begun;
    OneMorePart([ANNOUNCED], [ANNOUNCED], map[], TEXT_OPEN, begun);
    FirstDelta();
    assert begun[0 := PartState("output_text", "a", [], false, false)] == texted;
    OneMorePart([ANNOUNCED] + [TEXT_OPEN], [ANNOUNCED] + [TEXT_OPEN], begun, TEXT_DELTA, texted);
  }

  /** The stream commits and the response is accepted, but the deltas carry no probabilities: not those of
      the streamed part, nor those of the empty one. The events that close the two texts carry them. */
  lemma DeltasFallShort()
    ensures var f := Feed(false, Upstreams("r", UNLOGGED));
            && f.err.None? && f.n.committed && FinalAccepted(f.n, LOGGED) && Run(f.n.history).Some?
            && var events := Shows(f.sent, Run(f.n.history).value.st, LOGGED);
            var view := ClientRun(0, Absent, events);
            && view.Some? && view.value.Present?
            && PartAt(view.value.parts, 0).Some? && PartAt(view.value.parts, 0).value.logs == []
            && PartAt(view.value.parts, 1).Some? && PartAt(view.value.parts, 1).value.logs == []
            && TextDone(Content, 0, 0, "m", Some("a"), LogsList(["p"])) in events
            && TextDone(Content, 0, 1, "m", Some(""), LogsList(["q"])) in events
  {
    hide Run, Feed, ClientRun, Shows;
    UnloggedRuns();
    assert HasDelta(UNLOGGED) by {
      assert NonEmptyDelta(UNLOGGED[2]);
    }
    ConsistentHistoryCommits("r", UNLOGGED);
    var us, st := Upstreams("r", UNLOGGED), Run(UNLOGGED).value.st;
    Converges(us, LOGGED, LOGGED, 0);
    var live, content := LiveParts(st, Content, 0), LOGGED.output[0].content;
    DeliveredAt(Content, live, content, 2, 0);
    DeliveredAt(Content, live, content, 2, 1);
    ProbabilitiesDelivered(us, LOGGED, LOGGED, 0, 0);
    ProbabilitiesDelivered(us, LOGGED, LOGGED, 0, 1);
  }

  // ---------- closing snapshots ----------

  const SAID := MessageItem("m", "completed", [Refusal("X"), Text("a", LogsAbsent)], "live")
  const BEFORE := [ANNOUNCED]
    + [PartAdded(Content, 0, 0, "m", Refusal("X"))] + [PartDone(Content, 0, 0, "m", Refusal("X"))]
    + [PartAdded(Content, 0, 1, "m", Text("", LogsAbsent))] + [TextDelta(Content, 0, 1, "m", Some("a"), LogsList([]))]
    + [TextDone(Content, 0, 1, "m", Some("a"), LogsAbsent)] + [PartDone(Content, 0, 1, "m", Text("a", LogsAbsent))]
  const SHOWN := BEFORE + [ItemDone(0, SAID)]

  /** The same text, but another refusal, another status and other members. */
  const FINAL := Response("r", "completed", [MessageItem("m", "incomplete", [Refusal("Y"), Text("a", LogsAbsent)], "final")], "")

  const REFUSED := PartState("refusal", "", [], false, true)

  lemma RefusalRuns()
    ensures Run(BEFORE[..3]) == Some(Ran(InProgressAt(map[0 := REFUSED], false), BEFORE[..3]))
  {
    hide Run;
    AnnouncedRuns();
    var begun := map[0 := PartState("refusal", "", [], false, false)];
    assert map[][0 := PartState("refusal", "", [], false, false)] == begun;
    OneMorePart([ANNOUNCED], [ANNOUNCED], map[], PartAdded(Content, 0, 0, "m", Refusal("X")), begun);
    assert begun[0 := REFUSED] == map[0 := REFUSED];
    var two := [ANNOUNCED] + [PartAdded(Content, 0, 0, "m", Refusal("X"))];
    OneMorePart(two, two, begun, PartDone(Content, 0, 0, "m", Refusal("X")), map[0 := REFUSED]);
    assert BEFORE[..3] == two + [PartDone(Content, 0, 0, "m", Refusal("X"))];
  }

  lemma TextRuns()
    ensures Run(BEFORE[..5])
            == Some(Ran(InProgressAt(map[0 := REFUSED, 1 := PartState("output_text", "a", [], false, false)], false), BEFORE[..5]))
  {
    hide Run;
    RefusalRuns();
    var begun := map[0 := REFUSED, 1 := PartState("output_text", "", [], false, false)];
    var texted := map[0 := REFUSED, 1 := PartState("output_text", "a", [], false, false)];
    assert map[0 := REFUSED][1 := PartState("output_text", "", [], false, false)] == begun;
    OneMorePart(BEFORE[..3], BEFORE[..3], map[0 := REFUSED], BEFORE[3], begun);
    assert BEFORE[..4] == BEFORE[..3] + [BEFORE[3]];
    FirstDelta();
    assert begun[1 := PartState("output_text", "a", [], false, false)] == texted;
    OneMorePart(BEFORE[..4], BEFORE[..4], begun, BEFORE[4], texted);
    assert BEFORE[..5] == BEFORE[..4] + [BEFORE[4]];
  }

  lemma BeforeRuns()
    ensures Run(BEFORE)
            == Some(Ran(InProgressAt(map[0 := REFUSED, 1 := PartState("output_text", "a", [], true, true)], false), BEFORE))
  {
    hide Run;
    TextRuns();
    var texted := map[0 := REFUSED, 1 := PartState("output_text", "a", [], false, false)];
    var told := map[0 := REFUSED, 1 := PartState("output_text", "a", [], true, false)];
    var done := map[0 := REFUSED, 1 := PartState("output_text", "a", [], true, true)];
    assert texted[1 := PartState("output_text", "a", [], true, false)] == told;
    OneMorePart(BEFORE[..5], BEFORE[..5], texted, BEFORE[5], told);
    assert BEFORE[..6] == BEFORE[..5] + [BEFORE[5]];
    assert told[1 := PartState("output_text", "a", [], true, true)] == done;
    OneMorePart(BEFORE[..6], BEFORE[..6], told, BEFORE[6], done);
    assert BEFORE == BEFORE[..6] + [BEFORE[6]];
  }

  lemma ShownRuns()
    ensures Run(SHOWN)
            == Some(Ran(InProgressAt(map[0 := REFUSED, 1 := PartState("output_text", "a", [], true, true)], true), SHOWN))
  {
    hide Run;
    BeforeRuns();
    var parts := map[0 := REFUSED, 1 := PartState("output_text", "a", [], true, true)];
    var st := InProgressAt(parts, false);
    assert |parts| == 2;
    assert st.messages[0 := MessageState("m", parts, true)] == InProgressAt(parts, true).messages;
    OneMore(BEFORE, Ran(st, BEFORE), ItemDone(0, SAID), InProgressAt(parts, true), Some(ItemDone(0, SAID)));
  }

  /** The stream commits and the response is accepted; but the last closing event of the message is that of
      the live item, and so is that of its refusal. */
  lemma SnapshotsDiffer()
    ensures var f := Feed(false, Upstreams("r", SHOWN));
            && f.err.None? && f.n.committed && FinalAccepted(f.n, FINAL) && Run(f.n.history).Some?
            && var held := HeldRun(0, BLANK, Shows(f.sent, Run(f.n.history).value.st, FINAL));
            && held.Some? && held.value.closing == Some(SAID) && SAID != FINAL.output[0]
            && 0 in held.value.snapshots && held.value.snapshots[0] == Refusal("X") != FINAL.output[0].content[0]
  {
    hide Run, Feed, HeldRun, Shows;
    ShownRuns();
    assert HasDelta(SHOWN) by {
      assert NonEmptyDelta(SHOWN[4]);
    }
    ConsistentHistoryCommits("r", SHOWN);
    HeldConverges(Upstreams("r", SHOWN), FINAL, FINAL, 0);
    LiveClosings();
  }

  lemma LiveClosings()
    ensures ClosingIn(0, SHOWN) == Some(SAID) && SnapshotIn(0, 0, SHOWN) == Some(Refusal("X"))
  {
    ClosingAppend(0, 0, BEFORE, [ItemDone(0, SAID)]);
    ClosingAppend(0, 0, BEFORE[..3], BEFORE[3..]);
    assert BEFORE == BEFORE[..3] + BEFORE[3..];
    ClosingAppend(0, 0, BEFORE[..2], [BEFORE[2]]);
    assert BEFORE[..3] == BEFORE[..2] + [BEFORE[2]];
    assert [ItemDone(0, SAID)][1..] == [] && [BEFORE[2]][1..] == [];
    NoSnapshot(BEFORE[3..]);
  }

  lemma {:induction false} NoSnapshot(events: seq<Event>)
    requires forall e | e in events :: e.PartDone? ==> e.part != 0
    ensures SnapshotIn(0, 0, events) == None
  {
    if events != [] {
      assert events[0] in events;
      assert forall e | e in events[1..] :: e in events;
      NoSnapshot(events[1..]);
    }
  }
}
