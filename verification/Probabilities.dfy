/** Token probabilities. They travel in the deltas of a text, and again in the event that closes it: the
    deltas may fall short of the terminal ones, but then the closing event carries all of them. */
module Probabilities {
  import opened Responses
  import opened Delivery
  import opened Replay
  import opened Client
  import opened Acceptance
  import opened Convergence
  import opened Turn

  // ---------- the deltas ----------

  function SentLogs(live: map<int, PartState>, k: int): seq<Logprob> {
    if k in live then live[k].logs else []
  }

  /** The text was complete without the replay while some of its probabilities had not been sent, so that no
      delta is left to carry them. A part of which nothing was streamed counts as complete when its text is
      empty. */
  predicate FallsShort(live: map<int, PartState>, k: int, part: Part) {
    SentText(live, k) == TextOf(part) && |SentLogs(live, k)| < |part.Logs().Entries()|
  }

  lemma DeltasOfPart(k: int, live: map<int, PartState>, part: Part)
    requires TextPart(Content, part) && (k in live ==> Begins(Content, live[k], part))
    ensures var got, full := DeliveredPart(Content, k, live, part).logs, part.Logs().Entries();
            got <= full && (got == full <==> !FallsShort(live, k, part))
  {
    var full := part.Logs().Entries();
    if |SentLogs(live, k)| == |full| {
      assert SentLogs(live, k) == full;
    }
    if |TextOf(part)| <= |SentText(live, k)| {
      assert SentText(live, k) == TextOf(part);
    }
  }

  /** For every committing feed, accepted terminal response and text part of one of its messages: the
      probabilities of the deltas are a beginning of the part's, and all of them unless they fall short. */
  lemma DeltaLogprobs(us: seq<Upstream>, raw: Response, sent: Response, i: int, k: nat)
    requires var f := Feed(false, us); f.n.committed && FinalAccepted(f.n, raw)
    requires KeepsStreamedItems(raw.output, sent.output)
    requires 0 <= i < |sent.output| && sent.output[i].MessageItem? && k < |sent.output[i].content|
    requires TextPart(Content, sent.output[i].content[k])
    ensures Run(Feed(false, us).n.history).Some?
    ensures var f := Feed(false, us);
            var st, part := Run(f.n.history).value.st, sent.output[i].content[k];
            var view := ClientRun(i, Absent, Shows(f.sent, st, sent));
            && view.Some? && view.value.Present? && PartAt(view.value.parts, k).Some?
            && var got, full := PartAt(view.value.parts, k).value.logs, part.Logs().Entries();
               got <= full && (got == full <==> !FallsShort(LiveParts(st, Content, i), k, part))
  {
    hide Feed, FinalAccepted, KeepsStreamedItems, Run, ClientRun, Shows, DeliveredParts, DeliveredPart, PartAt, FallsShort;
    Converges(us, raw, sent, i);
    FeedForwardsItsHistory(false, us);
    var f := Feed(false, us);
    var st, item := Run(f.n.history).value.st, sent.output[i];
    var live := LiveParts(st, Content, i);
    DeliveredAt(Content, live, item.content, |item.content|, k);
    AcceptedPart(f.n, raw, sent, i, k);
    DeltasOfPart(k, live, item.content[k]);
  }

  lemma AcceptedPart(n: Naive, raw: Response, sent: Response, i: int, k: nat)
    requires n.committed && FinalAccepted(n, raw) && KeepsStreamedItems(raw.output, sent.output)
    requires 0 <= i < |sent.output| && sent.output[i].MessageItem? && k < |sent.output[i].content|
    requires Run(n.history).Some?
    ensures var st, part := Run(n.history).value.st, sent.output[i].content[k];
            var live := LiveParts(st, Content, i);
            && i !in st.reasonings
            && (k in live ==> Begins(Content, live[k], part))
            && (k in live && live[k].textDone && live[k].kind == "output_text" ==> LogprobsMatch(part.Logs(), live[k].logs))
  {
    hide Run, Begins;
    var st := Run(n.history).value.st;
    AcceptanceSurvives(st, raw.output, sent.output);
    RunMirrored(n.history, i);
    if i in st.messages {
      MessageBegins(st.messages[i], sent.output[i]);
      if k in st.messages[i].parts {
        assert PartAccepted(st.messages[i].parts[k], k, sent.output[i].content);
      }
    }
  }

  // ---------- closing text events shown live ----------

  /** The state remembers a closed text, with exactly the probabilities the closing event may repeat. */
  ghost predicate Remembers(parts: map<int, PartState>, k: int, logs: LogField) {
    k in parts && parts[k].textDone && LogprobsMatch(logs, parts[k].logs)
  }

  ghost predicate TextsRemembered(st: State, frames: seq<Event>) {
    forall e | e in frames && e.TextDone? && e.ch == Content ::
      e.index in st.messages && Remembers(st.messages[e.index].parts, e.part, e.logs)
  }

  lemma PartRemembers(parts: map<int, PartState>, e: Event)
    requires e.IsPartEvent() && ApplyPart(parts, e).Some?
    ensures var (parts', frame) := ApplyPart(parts, e).value;
            && (forall k, logs | Remembers(parts, k, logs) :: Remembers(parts', k, logs))
            && (frame.TextDone? && e.ch == Content ==> frame == e && Remembers(parts', e.part, e.logs))
  {
    hide Opening;
  }

  /** An event about one message, or about none. */
  lemma StepRemembers(st: State, frames: seq<Event>, e: Event)
    requires TextsRemembered(st, frames) && Apply(st, e).Some?
    ensures TextsRemembered(Apply(st, e).value.st, frames + FrameSeq(Apply(st, e).value.frame))
  {
    hide ApplyPart, Remembers, ValidateItem, MessageDoneMatches;
    if e.IsPartEvent() {
      PartRemembers(if e.ch == Content then st.messages[e.index].parts else st.reasonings[e.index].summaries, e);
      PartChannel(if e.ch == Content then st.messages[e.index].parts else st.reasonings[e.index].summaries, e);
    }
  }

  lemma PartChannel(parts: map<int, PartState>, e: Event)
    requires e.IsPartEvent() && ApplyPart(parts, e).Some?
    ensures var frame := ApplyPart(parts, e).value.1;
            frame.IsPartEvent() && frame.ch == e.ch && frame.index == e.index && frame.part == e.part
  {
  }

  lemma {:induction false} RunRemembers(history: seq<Event>)
    requires Run(history).Some?
    ensures TextsRemembered(Run(history).value.st, Run(history).value.frames)
  {
    hide Apply, TextsRemembered;
    if history == [] {
      NothingToRemember();
    } else {
      var shorter := history[..|history| - 1];
      RunRemembers(shorter);
      StepRemembers(Run(shorter).value.st, Run(shorter).value.frames, history[|history| - 1]);
    }
  }

  lemma NothingToRemember()
    ensures TextsRemembered(START, [])
  {
  }

  // ---------- closing text events of the replay ----------

  /** The event that closes the text of part `k` of a message with everything there is. */
  function ClosingText(i: int, item: Item, k: nat): Event
    requires item.MessageItem? && k < |item.content|
  {
    TextDone(Content, i, k, item.id, Some(TextOf(item.content[k])), LogsList(item.content[k].Logs().Entries()))
  }

  /** Closing text events about index `i` are those of the message's own parts. */
  ghost predicate ClosesTexts(i: int, item: Item, events: seq<Event>) {
    forall e | e in events && e.OutputIndex() == Some(i) && e.TextDone? && e.ch == Content ::
      item.MessageItem? && 0 <= e.part < |item.content| && e == ClosingText(i, item, e.part)
  }

  lemma PartTexts(ch: Channel, i: int, id: string, k: int, part: Part)
    ensures forall e | e in PartEvents(ch, i, id, k, part) && e.TextDone? ::
              e == TextDone(ch, i, k, id, Some(TextOf(part)), LogsOf(ch, part))
    ensures Shown(ch, part) && TextPart(ch, part) ==>
              TextDone(ch, i, k, id, Some(TextOf(part)), LogsOf(ch, part)) in PartEvents(ch, i, id, k, part)
  {
    hide TextOf, LogsOf, Opening, TextPart, Shown;
  }

  lemma {:induction false} PartsTexts(ch: Channel, i: int, id: string, parts: seq<Part>, n: nat)
    requires n <= |parts|
    ensures forall e | e in PartsEvents(ch, i, id, parts, n) && e.TextDone? ::
              0 <= e.part < n && e == TextDone(ch, i, e.part, id, Some(TextOf(parts[e.part])), LogsOf(ch, parts[e.part]))
    ensures forall k | 0 <= k < n && Shown(ch, parts[k]) && TextPart(ch, parts[k]) ::
              TextDone(ch, i, k, id, Some(TextOf(parts[k])), LogsOf(ch, parts[k])) in PartsEvents(ch, i, id, parts, n)
  {
    hide PartEvents, Shown, TextPart, TextOf, LogsOf;
    if n > 0 {
      PartsTexts(ch, i, id, parts, n - 1);
      PartTexts(ch, i, id, n - 1, parts[n - 1]);
    }
  }

  lemma ItemTexts(i: int, item: Item)
    ensures ClosesTexts(i, item, ItemEvents(i, item, true))
    ensures item.MessageItem? ==>
              forall k | 0 <= k < |item.content| && TextPart(Content, item.content[k]) ::
                ClosingText(i, item, k) in ItemEvents(i, item, true)
  {
    hide PartsEvents, Announced, TextOf, TextPart;
    if Streams(item) {
      PartsTexts(ChannelOf(item), i, item.Id(), PartsOf(item), |PartsOf(item)|);
    }
    if item.MessageItem? {
      forall k | 0 <= k < |item.content| && TextPart(Content, item.content[k])
        ensures ClosingText(i, item, k) in ItemEvents(i, item, true)
      {
        TextsAreShown(item.content[k]);
        assert ClosingText(i, item, k) in BodyEvents(i, item, true);
      }
    }
  }

  lemma TextsAreShown(part: Part)
    requires TextPart(Content, part)
    ensures Shown(Content, part)
  {
  }

  lemma {:induction false} OutputTexts(output: seq<Item>, n: nat, i: int)
    requires n <= |output| && 0 <= i < |output|
    ensures ClosesTexts(i, output[i], OutputEvents(output, n, true))
    ensures i < n && output[i].MessageItem? ==>
              forall k | 0 <= k < |output[i].content| && TextPart(Content, output[i].content[k]) ::
                ClosingText(i, output[i], k) in OutputEvents(output, n, true)
  {
    hide ItemEvents, TextPart, ClosingText;
    if n > 0 {
      OutputTexts(output, n - 1, i);
      if i == n - 1 {
        ItemTexts(i, output[i]);
      } else {
        ItemForeign(i, n - 1, output[n - 1], true);
      }
    }
  }

  /** The filter leaves closing text events as they are, and drops those of texts already closed. */
  lemma {:induction false} KeptTexts(st: State, events: seq<Event>)
    ensures forall e | e in Kept(st, events) && e.TextDone? :: e in events
    ensures forall e | e in events && Keep(st, e) == Some(e) :: e in Kept(st, events)
  {
    if events != [] {
      KeptTexts(st, events[1..]);
      KeepsText(st, events[0]);
    }
    hide Keep;
  }

  lemma KeepsText(st: State, e: Event)
    ensures Keep(st, e).Some? && Keep(st, e).value.TextDone? ==> Keep(st, e).value == e
  {
  }

  lemma OpenTextKept(st: State, e: Event)
    requires e.TextDone? && e.ch == Content && e.index !in st.reasonings
    requires var live := LiveParts(st, Content, e.index); e.part in live ==> !live[e.part].textDone
    ensures Keep(st, e) == Some(e)
  {
  }

  // ---------- nothing is lost ----------

  lemma ReplayTexts(st: State, r: Response, i: int)
    requires 0 <= i < |r.output|
    ensures ClosesTexts(i, r.output[i], Kept(st, Synthetic(r, false, true)))
    ensures r.output[i].MessageItem? ==>
              forall k | 0 <= k < |r.output[i].content| && TextPart(Content, r.output[i].content[k])
                         && Keep(st, ClosingText(i, r.output[i], k)) == Some(ClosingText(i, r.output[i], k)) ::
                ClosingText(i, r.output[i], k) in Kept(st, Synthetic(r, false, true))
  {
    hide Kept, OutputEvents, TextPart, ClosingText, Keep;
    var items := OutputEvents(r.output, |r.output|, true);
    OutputTexts(r.output, |r.output|, i);
    assert Synthetic(r, false, true) == items + [TerminalEvent(r)];
    KeptTexts(st, items + [TerminalEvent(r)]);
  }

  /** The list of a closing text event shown live is that of the terminal part. */
  lemma LiveList(p: PartState, logs: LogField, part: Part)
    requires LogprobsMatch(logs, p.logs) && logs.LogsList? && LogprobsMatch(part.Logs(), p.logs)
    requires p.logs <= part.Logs().Entries()
    ensures logs.entries == part.Logs().Entries()
  {
  }

  lemma LiveTexts(n: Naive, raw: Response, sent: Response, i: int, k: nat)
    requires n.committed && FinalAccepted(n, raw) && KeepsStreamedItems(raw.output, sent.output)
    requires 0 <= i < |sent.output| && sent.output[i].MessageItem? && k < |sent.output[i].content|
    requires Run(n.history).Some? && TextPart(Content, sent.output[i].content[k])
    ensures forall e | e in Run(n.history).value.frames && e.TextDone? && e.ch == Content && e.index == i && e.part == k && e.logs.LogsList? ::
              e.logs.entries == sent.output[i].content[k].Logs().Entries()
  {
    hide Run, FinalAccepted, LogprobsMatch, KeepsStreamedItems;
    RunRemembers(n.history);
    AcceptedPart(n, raw, sent, i, k);
    var st, part := Run(n.history).value.st, sent.output[i].content[k];
    forall e | e in Run(n.history).value.frames && e.TextDone? && e.ch == Content && e.index == i && e.part == k && e.logs.LogsList?
      ensures e.logs.entries == part.Logs().Entries()
    {
      LiveList(LiveParts(st, Content, i)[k], e.logs, part);
    }
  }

  /** A closing text event of the replay carries the list of the terminal part. */
  lemma ReplayedLists(i: int, item: Item, k: nat, replay: seq<Event>)
    requires item.MessageItem? && k < |item.content| && ClosesTexts(i, item, replay)
    ensures forall e | e in replay && e.TextDone? && e.ch == Content && e.index == i && e.part == k && e.logs.LogsList? ::
              e.logs.entries == item.content[k].Logs().Entries()
  {
  }

  /** Where the deltas fall short, the closing text event is still to come. */
  lemma OpenWhenShort(st: State, i: int, item: Item, k: nat)
    requires item.MessageItem? && k < |item.content| && i !in st.reasonings && TextPart(Content, item.content[k])
    requires var live := LiveParts(st, Content, i);
             && FallsShort(live, k, item.content[k])
             && (k in live ==> Begins(Content, live[k], item.content[k]))
             && (k in live && live[k].textDone && live[k].kind == "output_text" ==> LogprobsMatch(item.content[k].Logs(), live[k].logs))
    ensures Keep(st, ClosingText(i, item, k)) == Some(ClosingText(i, item, k))
  {
    hide Keep;
    OpenTextKept(st, ClosingText(i, item, k));
  }

  /** For every committing feed, accepted terminal response and text part of one of its messages: whatever
      list a closing text event carries, it is that of the terminal part; and if the deltas do not carry it,
      there is a closing text event that does. */
  lemma ProbabilitiesDelivered(us: seq<Upstream>, raw: Response, sent: Response, i: int, k: nat)
    requires var f := Feed(false, us); f.n.committed && FinalAccepted(f.n, raw)
    requires KeepsStreamedItems(raw.output, sent.output)
    requires 0 <= i < |sent.output| && sent.output[i].MessageItem? && k < |sent.output[i].content|
    requires TextPart(Content, sent.output[i].content[k])
    ensures Run(Feed(false, us).n.history).Some?
    ensures var f, full := Feed(false, us), sent.output[i].content[k].Logs().Entries();
            var events := Shows(f.sent, Run(f.n.history).value.st, sent);
            var view := ClientRun(i, Absent, events);
            && (forall e | e in events && e.TextDone? && e.ch == Content && e.index == i && e.part == k && e.logs.LogsList? ::
                  e.logs.entries == full)
            && view.Some? && view.value.Present? && PartAt(view.value.parts, k).Some?
            && (PartAt(view.value.parts, k).value.logs == full || ClosingText(i, sent.output[i], k) in events)
  {
    hide Feed, FinalAccepted, KeepsStreamedItems, Run, ClientRun, Kept, Synthetic, Begins, PartAt, ClosingText, Keep, LiveParts;
    DeltaLogprobs(us, raw, sent, i, k);
    FeedForwardsItsHistory(false, us);
    var f, item := Feed(false, us), sent.output[i];
    var st, replay := Run(f.n.history).value.st, Kept(Run(f.n.history).value.st, Synthetic(sent, false, true));
    AcceptedPart(f.n, raw, sent, i, k);
    ReplayTexts(st, sent, i);
    LiveTexts(f.n, raw, sent, i, k);
    ReplayedLists(i, item, k, replay);
    if FallsShort(LiveParts(st, Content, i), k, item.content[k]) {
      OpenWhenShort(st, i, item, k);
    }
  }
}
