/** Which histories the delivery machine takes, told by the history alone: an event is allowed or not by what
    has been said of its output index before, without any state. */
module Exact {
  import opened Responses
  import opened Delivery
  import opened Client
  import opened Acceptance
  import opened Turn
  import opened LiveForms

  // ---------- what has been said of one index ----------

  /** The kind under which part `k` was opened, if it was. */
  function PartKind(h: seq<Event>, k: int): Option<string> {
    if h == [] then None
    else
      var e := h[|h| - 1];
      if e.PartAdded? && e.part == k then Some(e.content.Kind()) else PartKind(h[..|h| - 1], k)
  }

  /** How many parts have been opened. */
  function Parts(h: seq<Event>): nat {
    if h == [] then 0 else Parts(h[..|h| - 1]) + if h[|h| - 1].PartAdded? then 1 else 0
  }

  /** The text that the deltas of part `k` add up to ... */
  function Said(h: seq<Event>, k: int): string {
    if h == [] then ""
    else
      var e := h[|h| - 1];
      Said(h[..|h| - 1], k) + if e.TextDelta? && e.part == k && e.delta.Some? then e.delta.value else ""
  }

  /** ... and their probabilities. */
  function Probs(h: seq<Event>, k: int): seq<Logprob> {
    if h == [] then []
    else
      var e := h[|h| - 1];
      Probs(h[..|h| - 1], k) + if e.TextDelta? && e.part == k then e.logs.Entries() else []
  }

  predicate TextClosed(h: seq<Event>, k: int) {
    exists e :: e in h && e.TextDone? && e.part == k
  }

  predicate Closed(h: seq<Event>, k: int) {
    exists e :: e in h && e.PartDone? && e.part == k
  }

  /** The item the closing event carried, if there was one. */
  function ClosedAs(h: seq<Event>): Option<Item> {
    if h == [] then None
    else if h[|h| - 1].ItemDone? then Some(h[|h| - 1].item)
    else ClosedAs(h[..|h| - 1])
  }

  predicate ItemClosed(h: seq<Event>) {
    ClosedAs(h).Some?
  }

  /** The probabilities an event or a snapshot repeats: none, or exactly those of the deltas. */
  predicate Repeats(logs: LogField, h: seq<Event>, k: int) {
    logs.LogsAbsent? || logs.LogsNull? || (logs.LogsList? && logs.entries == Probs(h, k))
  }

  predicate OpenPart(h: seq<Event>, k: int) {
    PartKind(h, k).Some? && !Closed(h, k)
  }

  predicate TextKind(ch: Channel, h: seq<Event>, k: int) {
    ch == Summary || PartKind(h, k) == Some("output_text")
  }

  /** Parts are opened one after the other, take text until their text has been closed with what was said, and
      are closed under the kind they were opened with. */
  predicate PartAllowed(ch: Channel, h: seq<Event>, e: Event) {
    match e
    case PartAdded(_, _, k, _, content) =>
      k == Parts(h) && (k > 0 ==> Closed(h, k - 1)) && (ch == Summary ==> content.Kind() == "summary_text")
    case TextDelta(_, _, k, _, delta, _) => OpenPart(h, k) && TextKind(ch, h, k) && !TextClosed(h, k) && delta.Some?
    case TextDone(_, _, k, _, text, logs) =>
      && OpenPart(h, k) && TextKind(ch, h, k) && !TextClosed(h, k) && text == Some(Said(h, k))
      && (ch == Content ==> Repeats(logs, h, k))
    case PartDone(_, _, k, _, content) =>
      && OpenPart(h, k) && PartKind(h, k) == Some(content.Kind())
      && (TextKind(ch, h, k) ==>
            TextClosed(h, k) && content.TextField() == Some(Said(h, k)) && (ch == Content ==> Repeats(content.Logs(), h, k)))
    case _ => false
  }

  /** A closing item holds every part that was opened, closed and as it was said. */
  predicate ItemAllowed(h: seq<Event>, first: Item, item: Item) {
    if first.MessageItem? then
      && item.MessageItem? && item.id == first.id && |item.content| == Parts(h)
      && forall k | 0 <= k < Parts(h) ::
           Closed(h, k) && (TextKind(Content, h, k) ==>
             item.content[k].TextField() == Some(Said(h, k)) && Repeats(item.content[k].Logs(), h, k))
    else
      && item.ReasoningItem? && item.id == first.Id() && Parts(h) <= |item.summary.GetOr([])|
      && forall k | 0 <= k < Parts(h) ::
           var part := item.summary.GetOr([])[k];
           Closed(h, k) && part.Kind() == "summary_text" && part.TextField() == Some(Said(h, k))
  }

  /** What may be said next of an index. */
  predicate Allowed(h: seq<Event>, e: Event) {
    if h == [] then e.ItemAdded? && e.item.Id() != ""
    else
      && h[0].ItemAdded? && !ItemClosed(h)
      && var first := h[0].item;
         var ch := if first.MessageItem? then Content else Summary;
         match e
         case ItemAdded(_, _) => false
         case ItemDone(_, item) => ItemAllowed(h, first, item)
         case _ => e.IsPartEvent() && e.ch == ch && e.itemId == first.Id() && PartAllowed(ch, h, e)
  }

  predicate AllAllowed(h: seq<Event>) {
    forall n | 0 <= n < |h| :: Allowed(h[..n], h[n])
  }

  // ---------- the machine's state tells the same ----------

  /** The parts of an item, as the machine remembers them. */
  ghost predicate Tells(ch: Channel, h: seq<Event>, parts: map<int, PartState>) {
    && PartsOk(ch, parts) && |parts| == Parts(h)
    && (forall k :: k in parts <==> PartKind(h, k).Some?)
    && (forall k | k in parts :: TellsPart(ch, h, k, parts[k]))
    && (forall k | k !in parts :: Untold(h, k))
  }

  ghost predicate TellsPart(ch: Channel, h: seq<Event>, k: int, p: PartState) {
    && PartKind(h, k) == Some(p.kind) && p.text == Said(h, k) && p.logs == (if ch == Content then Probs(h, k) else [])
    && p.textDone == TextClosed(h, k) && p.done == Closed(h, k)
  }

  ghost predicate Untold(h: seq<Event>, k: int) {
    Said(h, k) == "" && Probs(h, k) == [] && !TextClosed(h, k) && !Closed(h, k)
  }

  /** One more event. */
  lemma Next(h: seq<Event>, e: Event, k: int)
    ensures var l := h + [e];
            && PartKind(l, k) == (if e.PartAdded? && e.part == k then Some(e.content.Kind()) else PartKind(h, k))
            && Said(l, k) == Said(h, k) + (if e.TextDelta? && e.part == k && e.delta.Some? then e.delta.value else "")
            && Probs(l, k) == Probs(h, k) + (if e.TextDelta? && e.part == k then e.logs.Entries() else [])
            && TextClosed(l, k) == (TextClosed(h, k) || (e.TextDone? && e.part == k))
            && Closed(l, k) == (Closed(h, k) || (e.PartDone? && e.part == k))
            && ClosedAs(l) == (if e.ItemDone? then Some(e.item) else ClosedAs(h))
            && Parts(l) == Parts(h) + (if e.PartAdded? then 1 else 0)
  {
    var l := h + [e];
    assert l[..|l| - 1] == h;
    assert e in l && forall x | x in h :: x in l;
    assert forall x | x in l :: x in h || x == e;
  }

  /** An event that is not about part `k` tells nothing of it. */
  lemma OtherPart(ch: Channel, h: seq<Event>, e: Event, k: int)
    requires e.IsPartEvent() ==> e.part != k
    ensures PartKind(h + [e], k) == PartKind(h, k)
    ensures Untold(h, k) ==> Untold(h + [e], k)
    ensures forall p :: TellsPart(ch, h, k, p) ==> TellsPart(ch, h + [e], k, p)
  {
    Next(h, e, k);
    assert Said(h, k) + "" == Said(h, k) && Probs(h, k) + [] == Probs(h, k);
    hide PartKind, Said, Probs, TextClosed, Closed, ClosedAs, Parts;
  }

  lemma OpeningTold(ch: Channel, h: seq<Event>, e: Event)
    requires e.PartAdded? && Untold(h, e.part)
    ensures TellsPart(ch, h + [e], e.part, PartState(e.content.Kind(), "", [], false, false))
  {
    Next(h, e, e.part);
    hide PartKind, Said, Probs, TextClosed, Closed, ClosedAs, Parts;
  }

  /** The text of one part goes on exactly when that is allowed. */
  lemma TextTold(ch: Channel, h: seq<Event>, e: Event, p: PartState)
    requires (e.TextDelta? || e.TextDone? || e.PartDone?) && e.ch == ch && TellsPart(ch, h, e.part, p) && !p.done
    requires PartOk(ch, p)
    ensures ApplyText(p, e).Some? <==> PartAllowed(ch, h, e)
    ensures ApplyText(p, e).Some? ==> TellsPart(ch, h + [e], e.part, ApplyText(p, e).value)
  {
    Next(h, e, e.part);
    assert Said(h, e.part) + "" == Said(h, e.part) && Probs(h, e.part) + [] == Probs(h, e.part);
    hide PartKind, Said, Probs, TextClosed, Closed, ClosedAs, Parts;
  }

  /** An event about the parts of an open item is taken exactly when it is allowed. */
  lemma PartTold(ch: Channel, h: seq<Event>, e: Event, parts: map<int, PartState>)
    requires e.IsPartEvent() && e.ch == ch && Tells(ch, h, parts)
    ensures ApplyPart(parts, e).Some? <==> PartAllowed(ch, h, e)
    ensures ApplyPart(parts, e).Some? ==> Tells(ch, h + [e], ApplyPart(parts, e).value.0)
  {
    if e.PartAdded? {
      AddedTold(ch, h, e, parts);
    } else if e.part in parts {
      GoesOn(ch, h, e, parts);
    }
    hide Said, Probs, TextClosed, Closed, Parts, ApplyText, PartOk;
  }

  lemma AddedTold(ch: Channel, h: seq<Event>, e: Event, parts: map<int, PartState>)
    requires e.PartAdded? && e.ch == ch && Tells(ch, h, parts)
    ensures ApplyPart(parts, e).Some? <==> PartAllowed(ch, h, e)
    ensures ApplyPart(parts, e).Some? ==> Tells(ch, h + [e], ApplyPart(parts, e).value.0)
  {
    hide PartKind, Said, Probs, TextClosed, Closed, ClosedAs, Parts, Opening;
    Next(h, e, e.part);
    if ApplyPart(parts, e).Some? {
      PartAddedOk(parts, e);
      var after := ApplyPart(parts, e).value.0;
      OpeningTold(ch, h, e);
      hide TellsPart, Untold, PartsOk;
      forall k | k != e.part
        ensures k in after <==> PartKind(h + [e], k).Some?
        ensures k in after ==> TellsPart(ch, h + [e], k, after[k])
        ensures k !in after ==> Untold(h + [e], k)
      {
        OtherPart(ch, h, e, k);
      }
    }
  }

  lemma GoesOn(ch: Channel, h: seq<Event>, e: Event, parts: map<int, PartState>)
    requires e.IsPartEvent() && !e.PartAdded? && e.ch == ch && e.part in parts && Tells(ch, h, parts)
    ensures ApplyPart(parts, e).Some? <==> PartAllowed(ch, h, e)
    ensures ApplyPart(parts, e).Some? ==> Tells(ch, h + [e], ApplyPart(parts, e).value.0)
  {
    hide PartKind, Said, Probs, TextClosed, Closed, ClosedAs, Parts, ApplyText, PartOk;
    Next(h, e, e.part);
    if !parts[e.part].done {
      TextTold(ch, h, e, parts[e.part]);
    }
    if ApplyPart(parts, e).Some? {
      TextAppliedOk(parts, e);
      var after := ApplyPart(parts, e).value.0;
      hide TellsPart, Untold, PartsOk;
      forall k | k != e.part
        ensures k in after <==> PartKind(h + [e], k).Some?
        ensures k in after ==> TellsPart(ch, h + [e], k, after[k])
        ensures k !in after ==> Untold(h + [e], k)
      {
        OtherPart(ch, h, e, k);
      }
    }
  }

  // ---------- one index ----------

  /** What the machine remembers of an index is what has been said of it. */
  ghost predicate Remembers(h: seq<Event>, local: Local) {
    if h == [] then local == Local(None, None)
    else
      && h[0].ItemAdded?
      && if h[0].item.MessageItem? then
           && local.reasoning.None? && local.message.Some? && local.message.value.id == h[0].item.id
           && Tells(Content, h, local.message.value.parts) && local.message.value.done == ItemClosed(h)
         else
           && h[0].item.ReasoningItem? && local.message.None? && local.reasoning.Some? && local.reasoning.value.id == h[0].item.id
           && Tells(Summary, h, local.reasoning.value.summaries) && local.reasoning.value.upstreamDone == ItemClosed(h)
           && (ItemClosed(h) ==> ClosedAs(h).value.ReasoningItem? && local.reasoning.value.doneSummary == ClosedAs(h).value.summary)
  }

  lemma NothingSaid(ch: Channel, e: Event)
    requires e.ItemAdded?
    ensures Tells(ch, [e], map[]) && !ItemClosed([e])
  {
    hide PartKind, Untold, Parts, ClosedAs;
    NothingSaidOf(e, 0);
    forall k ensures PartKind([e], k).None? && Untold([e], k) {
      NothingSaidOf(e, k);
    }
  }

  lemma NothingSaidOf(e: Event, k: int)
    requires e.ItemAdded?
    ensures PartKind([e], k).None? && Untold([e], k) && ClosedAs([e]).None? && Parts([e]) == 0
  {
    Next([], e, k);
    assert [] + [e] == [e];
  }

  /** An event that is not about parts leaves them as they are. */
  lemma PartsKept(ch: Channel, h: seq<Event>, e: Event, parts: map<int, PartState>)
    requires !e.IsPartEvent() && Tells(ch, h, parts)
    ensures Tells(ch, h + [e], parts)
  {
    hide TellsPart, Untold, PartKind, Parts, PartsOk, Said, Probs, TextClosed, Closed, ClosedAs;
    Next(h, e, 0);
    forall k
      ensures k in parts <==> PartKind(h + [e], k).Some?
      ensures k in parts ==> TellsPart(ch, h + [e], k, parts[k])
      ensures k !in parts ==> Untold(h + [e], k)
    {
      OtherPart(ch, h, e, k);
    }
  }

  lemma SnapshotTold(h: seq<Event>, k: int, p: PartState, content: seq<Part>)
    requires TellsPart(Content, h, k, p) && 0 <= k < |content|
    ensures DonePartMatches(p, k, content) <==>
              Closed(h, k) && (TextKind(Content, h, k) ==>
                content[k].TextField() == Some(Said(h, k)) && Repeats(content[k].Logs(), h, k))
  {
    hide PartKind, Said, Probs, TextClosed, Closed;
  }

  lemma SummaryTold(h: seq<Event>, k: int, p: PartState, summary: seq<Part>)
    requires TellsPart(Summary, h, k, p) && 0 <= k < |summary| && PartOk(Summary, p)
    ensures p.done && SummaryMatches(p, k, summary) <==>
              Closed(h, k) && summary[k].Kind() == "summary_text" && summary[k].TextField() == Some(Said(h, k))
  {
    hide PartKind, Said, Probs, TextClosed, Closed;
  }

  lemma MessageTold(h: seq<Event>, m: MessageState, first: Item, item: Item)
    requires item.MessageItem? && first.MessageItem? && m.id == first.id && Tells(Content, h, m.parts)
    ensures MessageDoneMatches(m, item) <==> ItemAllowed(h, first, item)
  {
    hide TellsPart, Untold, DonePartMatches, PartKind, Parts, Said, Closed, PartOk;
    if |item.content| == Parts(h) {
      forall k | 0 <= k < Parts(h)
        ensures DonePartMatches(m.parts[k], k, item.content) <==>
                  Closed(h, k) && (TextKind(Content, h, k) ==>
                    item.content[k].TextField() == Some(Said(h, k)) && Repeats(item.content[k].Logs(), h, k))
      {
        SnapshotTold(h, k, m.parts[k], item.content);
      }
    }
    hide TextKind, Repeats;
  }

  predicate AllDone(parts: map<int, PartState>) {
    forall k | k in parts :: parts[k].done
  }

  lemma ReasoningTold(h: seq<Event>, r: ReasoningState, first: Item, item: Item)
    requires item.ReasoningItem? && first.ReasoningItem? && r.id == first.id && !r.upstreamDone && Tells(Summary, h, r.summaries)
    ensures ValidateItem(r, item) && AllDone(r.summaries) <==> ItemAllowed(h, first, item)
  {
    hide TellsPart, Untold, SummaryMatches, PartKind, Parts, Said, Closed, PartOk;
    var summary := item.summary.GetOr([]);
    forall k | 0 <= k < Parts(h)
      ensures k < |summary| ==>
                (r.summaries[k].done && SummaryMatches(r.summaries[k], k, summary) <==>
                  Closed(h, k) && summary[k].Kind() == "summary_text" && summary[k].TextField() == Some(Said(h, k)))
      ensures k >= |summary| ==> !SummaryMatches(r.summaries[k], k, summary)
    {
      if k < |summary| {
        SummaryTold(h, k, r.summaries[k], summary);
      } else {
        BeyondSummary(r.summaries[k], k, summary);
      }
    }
    if ValidateItem(r, item) && Parts(h) > 0 {
      assert SummaryMatches(r.summaries[Parts(h) - 1], Parts(h) - 1, summary);
    }
  }

  lemma BeyondSummary(p: PartState, k: int, summary: seq<Part>)
    requires k >= |summary|
    ensures !SummaryMatches(p, k, summary)
  {
  }

  lemma FirstExact(st: State, e: Event)
    requires Progress(e) && At(st, e.index) == Local(None, None)
    ensures Apply(st, e).Some? <==> Allowed([], e)
    ensures Apply(st, e).Some? ==> Remembers([e], At(Apply(st, e).value.st, e.index))
  {
    hide ApplyPart, ValidateItem, MessageDoneMatches, Tells;
    if e.ItemAdded? {
      NothingSaid(Content, e);
      NothingSaid(Summary, e);
    }
    assert [e][0] == e;
    hide ItemClosed;
  }

  lemma MessageExact(h: seq<Event>, st: State, e: Event)
    requires Progress(e) && h != [] && h[0].ItemAdded? && h[0].item.MessageItem? && Remembers(h, At(st, e.index))
    ensures Apply(st, e).Some? <==> Allowed(h, e)
    ensures Apply(st, e).Some? ==> Remembers(h + [e], At(Apply(st, e).value.st, e.index))
  {
    hide ApplyPart, ValidateItem, MessageDoneMatches, Tells, ItemAllowed, PartAllowed, ClosedAs;
    var m := st.messages[e.index];
    assert (h + [e])[0] == h[0];
    Next(h, e, 0);
    if e.IsPartEvent() && e.ch == Content {
      PartTold(Content, h, e, m.parts);
    } else if e.ItemDone? && e.item.MessageItem? {
      MessageTold(h, m, h[0].item, e.item);
      PartsKept(Content, h, e, m.parts);
    } else if e.ItemDone? {
      NotThatItem(h, h[0].item, e.item);
    }
    hide PartKind, Parts, Said, Probs, TextClosed, Closed;
  }

  lemma NotThatItem(h: seq<Event>, first: Item, item: Item)
    requires first.MessageItem? != item.MessageItem?
    ensures !ItemAllowed(h, first, item)
  {
  }

  lemma ReasoningExact(h: seq<Event>, st: State, e: Event)
    requires Progress(e) && h != [] && h[0].ItemAdded? && h[0].item.ReasoningItem? && Remembers(h, At(st, e.index))
    ensures Apply(st, e).Some? <==> Allowed(h, e)
    ensures Apply(st, e).Some? ==> Remembers(h + [e], At(Apply(st, e).value.st, e.index))
  {
    hide ApplyPart, ValidateItem, MessageDoneMatches, Tells, ItemAllowed, PartAllowed, ClosedAs;
    var r := st.reasonings[e.index];
    assert (h + [e])[0] == h[0];
    Next(h, e, 0);
    if e.IsPartEvent() && e.ch == Summary {
      PartTold(Summary, h, e, r.summaries);
    } else if e.ItemDone? && e.item.ReasoningItem? {
      if !r.upstreamDone {
        ReasoningTold(h, r, h[0].item, e.item);
      }
      PartsKept(Summary, h, e, r.summaries);
    } else if e.ItemDone? {
      NotThatItem(h, h[0].item, e.item);
    }
    hide PartKind, Parts, Said, Probs, TextClosed, Closed;
  }

  lemma {:induction false} OwnExact(h: seq<Event>, i: int)
    requires forall e | e in h :: Progress(e) && e.index == i
    ensures Run(h).Some? <==> AllAllowed(h)
    ensures Run(h).Some? ==> Remembers(h, At(Run(h).value.st, i))
  {
    hide Apply, Allowed, Remembers, Progress;
    if h == [] {
      NothingRemembered(i);
    } else {
      var shorter, e := h[..|h| - 1], h[|h| - 1];
      assert h == shorter + [e];
      OwnExact(shorter, i);
      AllowedNext(shorter, e);
      if Run(shorter).Some? {
        StepExact(shorter, Run(shorter).value.st, e);
      }
    }
  }

  lemma NothingRemembered(i: int)
    ensures Remembers([], At(START, i))
  {
  }

  lemma AllowedNext(h: seq<Event>, e: Event)
    ensures AllAllowed(h + [e]) <==> AllAllowed(h) && Allowed(h, e)
  {
    hide Allowed;
    var l := h + [e];
    assert l[..|h|] == h && l[|h|] == e;
    assert forall n | 0 <= n < |h| :: l[..n] == h[..n] && l[n] == h[n];
  }

  lemma StepExact(h: seq<Event>, st: State, e: Event)
    requires Progress(e) && Remembers(h, At(st, e.index))
    ensures Apply(st, e).Some? <==> Allowed(h, e)
    ensures Apply(st, e).Some? ==> Remembers(h + [e], At(Apply(st, e).value.st, e.index))
  {
    hide Apply, Allowed, Progress, Tells;
    if h == [] {
      FirstExact(st, e);
      assert h + [e] == [e];
    } else if h[0].item.MessageItem? {
      MessageExact(h, st, e);
    } else {
      ReasoningExact(h, st, e);
    }
    hide Remembers;
  }

  /** Everything that is said of index `i` was allowed when it was said. */
  predicate AllowedAt(history: seq<Event>, i: int) {
    AllAllowed(Projection(i, history))
  }

  /** The machine takes a history if and only if it holds message and reasoning events alone and each of them
      was allowed by what had been said of its index before. */
  lemma ConsistentIff(history: seq<Event>)
    ensures Run(history).Some? <==> (forall e | e in history :: Progress(e)) && forall i :: AllowedAt(history, i)
  {
    hide Run, AllowedAt, Progress, RunsAt, Alike;
    if Run(history).Some? {
      RunProgresses(history);
    }
    if forall e | e in history :: Progress(e) {
      RunLocal(history);
      forall i ensures RunsAt(history, i) <==> AllowedAt(history, i) {
        IndexExact(history, i);
      }
    }
  }

  lemma IndexExact(history: seq<Event>, i: int)
    requires forall e | e in history :: Progress(e)
    ensures RunsAt(history, i) <==> AllowedAt(history, i)
  {
    hide AllAllowed, Progress, Remembers;
    ProjectedProgress(i, history);
    OwnExact(Projection(i, history), i);
  }

  lemma {:induction false} ProjectedProgress(i: int, history: seq<Event>)
    requires forall e | e in history :: Progress(e)
    ensures forall e | e in Projection(i, history) :: Progress(e) && e.index == i
  {
    hide Progress;
    if history != [] {
      assert history[0] in history && forall e | e in history[1..] :: e in history;
      ProgressIsNumbered(history[0]);
      ProjectedProgress(i, history[1..]);
    }
  }

  // ---------- the terminal response ----------

  /** The terminal part continues what was said of part `k`. */
  predicate Continues(h: seq<Event>, k: int, content: seq<Part>) {
    && 0 <= k < |content| && content[k].Part? && content[k].kind == PartKind(h, k)
    && (TextKind(Content, h, k) ==>
          && content[k].text.Some? && Said(h, k) <= content[k].text.value && Probs(h, k) <= content[k].logs.Entries()
          && (TextClosed(h, k) ==> content[k].text.value == Said(h, k) && Repeats(content[k].logs, h, k)))
  }

  predicate ContinuesSummary(h: seq<Event>, k: int, summary: seq<Part>) {
    && 0 <= k < |summary| && summary[k].Kind() == "summary_text" && summary[k].TextField().Some?
    && Said(h, k) <= summary[k].TextField().value
    && (TextClosed(h, k) ==> summary[k].TextField().value == Said(h, k))
  }

  /** The terminal item continues what was said of its index. */
  predicate ContinuesItem(h: seq<Event>, item: Item)
    requires h != [] && h[0].ItemAdded?
  {
    if h[0].item.MessageItem? then
      && item.MessageItem? && item.id == h[0].item.id
      && (ItemClosed(h) ==> |item.content| == Parts(h))
      && forall k | 0 <= k < Parts(h) :: Continues(h, k, item.content)
    else
      && item.ReasoningItem? && item.id == h[0].item.Id()
      && (ItemClosed(h) ==> ClosedAs(h).value.ReasoningItem? && item.summary == ClosedAs(h).value.summary)
      && forall k | 0 <= k < Parts(h) :: ContinuesSummary(h, k, item.summary.GetOr([]))
  }

  lemma ContinuesPart(h: seq<Event>, k: int, p: PartState, content: seq<Part>)
    requires TellsPart(Content, h, k, p)
    ensures PartAccepted(p, k, content) <==> Continues(h, k, content)
  {
    hide PartKind, Said, Probs, TextClosed, Closed;
  }

  lemma ContinuesSummaryPart(h: seq<Event>, k: int, p: PartState, summary: seq<Part>)
    requires TellsPart(Summary, h, k, p)
    ensures SummaryMatches(p, k, summary) <==> ContinuesSummary(h, k, summary)
  {
    hide PartKind, Said, Probs, TextClosed, Closed;
  }

  lemma ContinuesIff(h: seq<Event>, st: State, i: int, item: Item)
    requires h != [] && Remembers(h, At(st, i))
    ensures Fits(st, i, item) <==> ContinuesItem(h, item)
    ensures i in st.messages || i in st.reasonings
  {
    hide TellsPart, Untold, PartAccepted, SummaryMatches, Continues, ContinuesSummary, PartKind, Parts, ClosedAs, PartOk;
    if h[0].item.MessageItem? {
      var m := st.messages[i];
      if item.MessageItem? {
        forall k | 0 <= k < Parts(h) ensures PartAccepted(m.parts[k], k, item.content) <==> Continues(h, k, item.content) {
          ContinuesPart(h, k, m.parts[k], item.content);
        }
      }
    } else {
      var r := st.reasonings[i];
      if item.ReasoningItem? {
        forall k | 0 <= k < Parts(h)
          ensures SummaryMatches(r.summaries[k], k, item.summary.GetOr([])) <==> ContinuesSummary(h, k, item.summary.GetOr([]))
        {
          ContinuesSummaryPart(h, k, r.summaries[k], item.summary.GetOr([]));
        }
      }
    }
  }

  /** What was said of index `i`, if anything, is continued by the item of the response there. */
  predicate ContinuedAt(history: seq<Event>, output: seq<Item>, i: int) {
    var own := Projection(i, history);
    own != [] ==> 0 <= i < |output| && own[0].ItemAdded? && ContinuesItem(own, output[i])
  }

  lemma ContinuedIff(history: seq<Event>, output: seq<Item>, i: int)
    requires Run(history).Some?
    ensures var st := Run(history).value.st;
            ContinuedAt(history, output, i) <==>
              && (i in st.reasonings ==> 0 <= i < |output| && ValidateItem(st.reasonings[i], output[i]))
              && (i in st.messages ==> 0 <= i < |output| && MessageAccepted(st.messages[i], output[i]))
  {
    hide Run, Projection, Remembers, ContinuesItem, ValidateItem, MessageAccepted, Progress, RunsAt, AllAllowed;
    RunProgresses(history);
    RunLocal(history);
    assert Alike(history, i);
    var own := Projection(i, history);
    ProjectedProgress(i, history);
    OwnExact(own, i);
    var st, local := Run(history).value.st, Run(own).value.st;
    assert At(st, i) == At(local, i);
    if own == [] {
      NothingRemains(local, i, own);
    } else {
      RemembersFirst(own, At(local, i));
      if 0 <= i < |output| {
        ContinuesIff(own, local, i, output[i]);
      } else {
        ContinuesIff(own, local, i, NonObject(""));
      }
    }
  }

  lemma NothingRemains(st: State, i: int, own: seq<Event>)
    requires own == [] && Remembers(own, At(st, i))
    ensures i !in st.messages && i !in st.reasonings
  {
  }

  lemma RemembersFirst(h: seq<Event>, local: Local)
    requires h != [] && Remembers(h, local)
    ensures h[0].ItemAdded?
  {
  }

  /** A response is accepted for a consistent history if and only if at every index of which something was
      said its item continues that. */
  lemma AcceptedIff(history: seq<Event>, output: seq<Item>)
    requires Run(history).Some?
    ensures ItemsAccepted(Run(history).value.st, output) <==> forall i :: ContinuedAt(history, output, i)
  {
    hide Run, ContinuedAt, ValidateItem, MessageAccepted;
    forall i
      ensures var st := Run(history).value.st;
              ContinuedAt(history, output, i) <==>
                && (i in st.reasonings ==> 0 <= i < |output| && ValidateItem(st.reasonings[i], output[i]))
                && (i in st.messages ==> 0 <= i < |output| && MessageAccepted(st.messages[i], output[i]))
    {
      ContinuedIff(history, output, i);
    }
  }

  // ---------- what the client is shown ----------

  /** How a part is announced: without text, and without probabilities where it had some. */
  predicate BlankOf(ch: Channel, content: Part, shown: Part) {
    if content.NotObject? then shown == NotObject("null")
    else
      && shown.Part? && shown.kind == content.kind && shown.rest == content.rest
      && if ch == Summary then shown.text == Some("") && shown.logs == content.logs
         else if content.Kind() == "output_text" then
           shown.text == Some("") && (if content.logs.LogsAbsent? then shown.logs.LogsAbsent? else shown.logs == LogsList([]))
         else shown == content
  }

  /** What the client may see of one event: announcements are blank, deltas of messages always carry a list of
      probabilities, closing events of reasoning items stay behind, and everything else is as it came. */
  predicate ShownAs(e: Event, frames: seq<Event>) {
    match e
    case ItemAdded(i, MessageItem(id, _, _, rest)) => frames == [ItemAdded(i, MessageItem(id, "in_progress", [], rest))]
    case ItemAdded(i, ReasoningItem(id, _, _, rest)) => frames == [ItemAdded(i, ReasoningItem(id, Some([]), None, rest))]
    case ItemDone(_, ReasoningItem(_, _, _, _)) => frames == []
    case PartAdded(ch, i, k, id, content) =>
      |frames| == 1 && frames[0].PartAdded? && frames[0] == PartAdded(ch, i, k, id, frames[0].content) && BlankOf(ch, content, frames[0].content)
    case TextDelta(Content, i, k, id, delta, logs) => frames == [TextDelta(Content, i, k, id, delta, LogsList(logs.Entries()))]
    case _ => frames == [e]
  }

  lemma FrameShown(st: State, e: Event)
    requires Apply(st, e).Some?
    ensures ShownAs(e, FrameSeq(Apply(st, e).value.frame))
  {
    hide ValidateItem, MessageDoneMatches;
    if e.IsPartEvent() {
      PartShown(if e.ch == Content then st.messages[e.index].parts else st.reasonings[e.index].summaries, e);
    }
    hide ApplyPart;
  }

  lemma PartShown(parts: map<int, PartState>, e: Event)
    requires e.IsPartEvent() && ApplyPart(parts, e).Some?
    ensures ShownAs(e, [ApplyPart(parts, e).value.1])
  {
  }

  /** The frames of a history, event by event. */
  lemma FramesShown(history: seq<Event>, e: Event)
    requires Run(history + [e]).Some?
    ensures Run(history).Some?
    ensures exists more :: Run(history + [e]).value.frames == Run(history).value.frames + more && ShownAs(e, more)
  {
    hide Run, Apply;
    RunAppend(history, e);
    FrameShown(Run(history).value.st, e);
  }

  // ---------- the machine, step by step ----------

  /** An event whose index, and part, is a whole number from 0 to 2^30. */
  predicate InRange(e: Event) {
    && e.OutputIndex().Some? && 0 <= e.index <= 1073741824
    && (e.IsPartEvent() ==> 0 <= e.part <= 1073741824)
  }

  /** A delta with some text. */
  predicate HasText(e: Event) {
    e.TextDelta? && e.delta.Some? && e.delta.value != ""
  }

  /** Why an upstream event is refused: it is broken, comes after the end, reports a failure, gives another
      response id, has no proper index, or does not continue what a checking machine has taken before. */
  lemma RefusedIff(n: Naive, u: Upstream)
    ensures NaiveStep(n, u).err.Some? <==>
              || u.BadJson?
              || (!u.DoneMarker? && (n.terminal || n.sentinel))
              || u.Failure? || u.Unnumbered?
              || (u.Meta? && n.meta.Some? && n.meta.value != u.id)
              || (u.Output? && Progress(u.ev)
                  && (!InRange(u.ev) || ((n.buffered || n.committed) && Run(n.history + [u.ev]).None?)))
    ensures NaiveStep(n, u).err.Some? ==>
              NaiveStep(n, u).err.value ==
                if u.BadJson? then InvalidJson
                else if !u.DoneMarker? && (n.terminal || n.sentinel) then Inconsistent
                else if u.Failure? then UpstreamFailed(u.reason) else Inconsistent
  {
    hide Run, Apply, Progress, Delivers;
    if u.Output? {
      RunAppend(n.history, u.ev);
    }
  }

  /** What an upstream event that is not refused changes: everything is counted; the end, the response id and
      the events that concern the machine are remembered; and an incremental machine commits at the first delta
      with some text at which the id is known and everything so far is consistent. */
  lemma TakenAs(n: Naive, u: Upstream)
    requires NaiveStep(n, u).err.None?
    ensures var next := NaiveStep(n, u).next;
            && next.events == n.events + 1 && next.buffered == n.buffered
            && next.terminal == (n.terminal || u.Terminal?) && next.sentinel == (n.sentinel || u.DoneMarker?)
            && next.meta == (if n.meta.None? && u.Meta? && u.id != "" then Some(u.id) else n.meta)
            && next.history == (if u.Output? && Progress(u.ev) then n.history + [u.ev] else n.history)
    ensures var next := NaiveStep(n, u).next;
            n.committed ==> next.committed
    ensures var next := NaiveStep(n, u).next;
            !n.committed ==>
              (next.committed <==>
                !n.buffered && u.Output? && Progress(u.ev) && HasText(u.ev) && n.meta.Some? && Run(n.history + [u.ev]).Some?)
  {
    hide Run, Apply, Progress, Delivers, Numbered;
  }

  /** What is handed on: the response id when it is first told, the whole batch with the id at the commit, and
      after it each event's frame as it comes. */
  lemma HandedOn(n: Naive, u: Upstream)
    requires NaiveStep(n, u).err.None?
    ensures var s := NaiveStep(n, u);
            && (s.effect.Announce? <==> n.meta.None? && s.next.meta.Some?)
            && (s.effect.Announce? ==> s.next.meta == Some(s.effect.id))
            && (s.effect.Forward? && !n.committed ==>
                  s.next.committed && s.effect.meta == n.meta && Some(Ran(Run(s.next.history).value.st, s.effect.frames)) == Run(s.next.history))
            && (s.effect.Forward? && n.committed ==> s.effect.meta.None? && |s.effect.frames| == 1)
            && (!n.committed && s.next.committed ==> s.effect.Forward?)
    ensures var s := NaiveStep(n, u);
            n.committed && Run(n.history).Some? && u.Output? && Progress(u.ev) ==>
              Run(s.next.history).Some? && Run(s.next.history).value.frames == Run(n.history).value.frames + s.effect.Frames()
  {
    hide Run, Apply, Progress, Delivers, Numbered;
    if u.Output? {
      RunAppend(n.history, u.ev);
    }
  }
}
