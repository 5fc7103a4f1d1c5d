/** Properties of whole runs of the delivery machine, from the first upstream event to the end of the
    replay. */
module Turn {
  import opened Responses
  import opened Delivery
  import opened Replay
  import opened Client
  import opened Convergence
  import opened Acceptance

  // ---------- what the machine has forwarded ----------

  /** A machine forwards nothing before it commits, and then exactly the frames of its history. */
  ghost predicate Sound(n: Naive, sent: seq<Event>) {
    && (n.buffered ==> !n.committed)
    && (n.buffered || n.committed ==> Run(n.history).Some?)
    && sent == (if n.committed then Run(n.history).value.frames else [])
  }

  lemma OutputSound(n: Naive, sent: seq<Event>, e: Event)
    requires Sound(n, sent)
    ensures var s := NaiveOutput(n, e);
            s.next.buffered == n.buffered && Sound(s.next, sent + s.effect.Frames())
  {
    hide Run, Apply, Delivers;
    RunAppend(n.history, e);
    assert sent + [] == sent;
  }

  /** Every step is either the processing of an event or leaves the history and the client alone. */
  lemma StepCases(n: Naive, u: Upstream)
    ensures var s := NaiveStep(n, u);
            || (u.Output? && s == NaiveOutput(n.(events := n.events + 1), u.ev))
            || (&& s.effect.Frames() == []
                && s.next == n.(events := n.events + 1, terminal := s.next.terminal, sentinel := s.next.sentinel, meta := s.next.meta))
  {
    hide NaiveOutput, Progress, Numbered;
  }

  lemma StepSound(n: Naive, sent: seq<Event>, u: Upstream)
    requires Sound(n, sent)
    ensures var s := NaiveStep(n, u);
            s.next.buffered == n.buffered && Sound(s.next, sent + s.effect.Frames())
  {
    assert sent + [] == sent;
    StepCases(n, u);
    if u.Output? {
      OutputSound(n.(events := n.events + 1), sent, u.ev);
    }
    hide Run, NaiveOutput, NaiveStep;
  }

  lemma {:induction false} FeedForwardsItsHistory(buffered: bool, us: seq<Upstream>)
    ensures Feed(buffered, us).n.buffered == buffered && Sound(Feed(buffered, us).n, Feed(buffered, us).sent)
  {
    if us != [] {
      hide NaiveStep, Sound;
      FeedForwardsItsHistory(buffered, us[..|us| - 1]);
      var f := Feed(buffered, us[..|us| - 1]);
      StepSound(f.n, f.sent, us[|us| - 1]);
    }
  }

  lemma DeliversConcat(ch: Channel, a: seq<Event>, b: seq<Event>)
    ensures Delivers(ch, a + b) == (Delivers(ch, a) || Delivers(ch, b))
  {
    var all := a + b;
    assert forall k | 0 <= k < |a| :: all[k] == a[k];
    assert forall k | 0 <= k < |b| :: all[|a| + k] == b[k];
  }

  /** The two delivery flags say exactly which kinds of non-empty text have been forwarded; a machine
      has forwarded some as soon as it commits. */
  ghost predicate Flagged(n: Naive, sent: seq<Event>) {
    && n.deliveredText == Delivers(Content, sent)
    && n.deliveredSummary == Delivers(Summary, sent)
    && (n.committed ==> n.deliveredText || n.deliveredSummary)
  }

  lemma DeltaIsForwarded(history: seq<Event>, e: Event)
    requires NonEmptyDelta(e) && Run(history + [e]).Some?
    ensures Delivers(e.ch, Run(history + [e]).value.frames)
  {
    RunAppend(history, e);
    var before := Run(history).value;
    var frame := Apply(before.st, e).value.frame;
    assert frame.Some? && NonEmptyDelta(frame.value) && frame.value.ch == e.ch;
    hide Run, Apply;
    var frames := before.frames + [frame.value];
    assert frames[|before.frames|] == frame.value;
  }

  lemma OutputFlagged(n: Naive, sent: seq<Event>, e: Event)
    requires Sound(n, sent) && Flagged(n, sent)
    ensures Flagged(NaiveOutput(n, e).next, sent + NaiveOutput(n, e).effect.Frames())
  {
    var frames := NaiveOutput(n, e).effect.Frames();
    if NonEmptyDelta(e) && Run(n.history + [e]).Some? {
      DeltaIsForwarded(n.history, e);
    }
    DeliversConcat(Content, sent, frames);
    DeliversConcat(Summary, sent, frames);
    hide Run, Apply, Delivers, NonEmptyDelta;
    assert sent + [] == sent;
  }

  lemma StepFlagged(n: Naive, sent: seq<Event>, u: Upstream)
    requires Sound(n, sent) && Flagged(n, sent)
    ensures Flagged(NaiveStep(n, u).next, sent + NaiveStep(n, u).effect.Frames())
  {
    assert sent + [] == sent;
    StepCases(n, u);
    if u.Output? {
      OutputFlagged(n.(events := n.events + 1), sent, u.ev);
    }
    hide Run, NaiveOutput, NaiveStep, Delivers;
  }

  lemma {:induction false} FlagsTellWhatWasDelivered(buffered: bool, us: seq<Upstream>)
    ensures Flagged(Feed(buffered, us).n, Feed(buffered, us).sent)
  {
    if us != [] {
      hide NaiveStep, Sound, Flagged;
      var shorter := us[..|us| - 1];
      FeedForwardsItsHistory(buffered, shorter);
      FlagsTellWhatWasDelivered(buffered, shorter);
      var f := Feed(buffered, shorter);
      StepFlagged(f.n, f.sent, us[|us| - 1]);
    } else {
      assert !Delivers(Content, []) && !Delivers(Summary, []);
    }
  }

  // ---------- consistent histories do commit ----------

  /** The message and reasoning events among upstream events. */
  function Outputs(us: seq<Upstream>): seq<Event> {
    if us == [] then []
    else Outputs(us[..|us| - 1]) + if us[|us| - 1].Output? then [us[|us| - 1].ev] else []
  }

  /** Nothing but one response id, numbered events, and events that are not for the machine. */
  predicate Smooth(id: string, us: seq<Upstream>) {
    forall u | u in us :: u == Meta(id) || u.Ignored? || (u.Output? && Progress(u.ev) && Numbered(u.ev))
  }

  /** An upstream stream that gives the response id and then the events of a history. */
  function Upstreams(id: string, history: seq<Event>): seq<Upstream> {
    if history == [] then [Meta(id)] else Upstreams(id, history[..|history| - 1]) + [Output(history[|history| - 1])]
  }

  predicate HasDelta(history: seq<Event>) {
    exists k :: 0 <= k < |history| && NonEmptyDelta(history[k])
  }

  lemma HasDeltaAppend(history: seq<Event>, e: Event)
    ensures HasDelta(history + [e]) <==> HasDelta(history) || NonEmptyDelta(e)
  {
    var all := history + [e];
    assert all[|history|] == e && forall k | 0 <= k < |history| :: all[k] == history[k];
  }

  /** A machine that has been told the response id and fed a consistent history. */
  predicate FedConsistently(f: Fed, buffered: bool, id: string, history: seq<Event>) {
    && f.err.None? && f.n.history == history && f.n.meta == Some(id) && !f.n.terminal && !f.n.sentinel && f.n.buffered == buffered
    && f.n.committed == (!buffered && HasDelta(history))
  }

  lemma FedOneMore(f: Fed, buffered: bool, id: string, shorter: seq<Event>, e: Event)
    requires FedConsistently(f, buffered, id, shorter) && Run(shorter).Some? && Run(shorter + [e]).Some? && Numbered(e)
    ensures var s := NaiveStep(f.n, Output(e));
            FedConsistently(Fed(s.next, f.sent + s.effect.Frames(), s.err), buffered, id, shorter + [e])
  {
    hide Run, Numbered, Progress, HasDelta, NaiveOutput, Apply;
    RunAppend(shorter, e);
    ApplyProgresses(Run(shorter).value.st, e);
    HasDeltaAppend(shorter, e);
    ConsistentOutput(f.n.(events := f.n.events + 1), e);
  }

  lemma FedOther(f: Fed, buffered: bool, id: string, history: seq<Event>, u: Upstream)
    requires FedConsistently(f, buffered, id, history) && (u == Meta(id) || u.Ignored?)
    ensures var s := NaiveStep(f.n, u);
            FedConsistently(Fed(s.next, f.sent + s.effect.Frames(), s.err), buffered, id, history)
  {
  }

  /** In either mode, a stream that gives the response id first and whose events are consistent is fed without
      an error; the machine holds exactly its events, and has committed exactly when it is incremental and
      one of them is a non-empty delta. */
  lemma {:induction false} SmoothFeed(buffered: bool, id: string, us: seq<Upstream>)
    requires id != "" && us != [] && us[0] == Meta(id) && Smooth(id, us) && Run(Outputs(us)).Some?
    ensures FedConsistently(Feed(buffered, us), buffered, id, Outputs(us))
  {
    hide Run, Numbered, Progress, HasDelta, NaiveStep, FedConsistently;
    var shorter, u := us[..|us| - 1], us[|us| - 1];
    assert shorter + [u] == us && forall x | x in shorter :: x in us;
    if shorter == [] {
      FirstMeta(buffered, id);
    } else {
      assert u in us;
      if u.Output? {
        RunAppend(Outputs(shorter), u.ev);
        SmoothFeed(buffered, id, shorter);
        FedOneMore(Feed(buffered, shorter), buffered, id, Outputs(shorter), u.ev);
      } else {
        assert Outputs(shorter) + [] == Outputs(shorter);
        SmoothFeed(buffered, id, shorter);
        FedOther(Feed(buffered, shorter), buffered, id, Outputs(shorter), u);
      }
      FedHasNoError(Feed(buffered, shorter), buffered, id, Outputs(shorter));
    }
  }

  lemma FedHasNoError(f: Fed, buffered: bool, id: string, history: seq<Event>)
    requires FedConsistently(f, buffered, id, history)
    ensures f.err.None?
  {
  }

  lemma FirstMeta(buffered: bool, id: string)
    ensures id != "" ==> FedConsistently(Feed(buffered, [Meta(id)]), buffered, id, [])
    ensures Outputs([Meta(id)]) == []
  {
    assert [Meta(id)][..0] == [];
  }

  lemma OutputsNext(us: seq<Upstream>, u: Upstream)
    ensures Outputs(us + [u]) == if u.Output? then Outputs(us) + [u.ev] else Outputs(us)
  {
    var longer := us + [u];
    assert longer[..|longer| - 1] == us;
    assert Outputs(us) + [] == Outputs(us);
  }

  lemma {:induction false} UpstreamsAreSmooth(id: string, history: seq<Event>)
    requires forall e | e in history :: Progress(e) && Numbered(e)
    ensures var us := Upstreams(id, history); us != [] && us[0] == Meta(id) && Smooth(id, us) && Outputs(us) == history
  {
    hide Progress, Numbered, Outputs;
    if history == [] {
      FirstMeta(false, id);
    } else {
      var shorter, e := history[..|history| - 1], history[|history| - 1];
      assert shorter + [e] == history;
      UpstreamsAreSmooth(id, shorter);
      OutputsNext(Upstreams(id, shorter), Output(e));
    }
  }

  /** Once the response id is known, a consistent history is fed without an error, and commits exactly when
      it holds a non-empty delta; its frames have then been shown. */
  lemma ConsistentHistoryCommits(id: string, history: seq<Event>)
    requires id != "" && Run(history).Some? && forall e | e in history :: Numbered(e)
    ensures var f := Feed(false, Upstreams(id, history));
            && f.err.None? && f.n.history == history && f.n.meta == Some(id) && f.n.committed == HasDelta(history)
            && f.sent == (if f.n.committed then Run(history).value.frames else [])
  {
    hide Run, Numbered, HasDelta, Feed, Progress, Upstreams;
    RunProgresses(history);
    UpstreamsAreSmooth(id, history);
    SmoothFeed(false, id, Upstreams(id, history));
    FeedForwardsItsHistory(false, Upstreams(id, history));
  }

  lemma {:induction false} RunProgresses(history: seq<Event>)
    requires Run(history).Some?
    ensures forall e | e in history :: Progress(e)
  {
    hide Apply, Progress;
    if history != [] {
      var shorter, e := history[..|history| - 1], history[|history| - 1];
      RunProgresses(shorter);
      ApplyProgresses(Run(shorter).value.st, e);
      assert history == shorter + [e];
    }
  }

  lemma ApplyProgresses(st: State, e: Event)
    ensures Apply(st, e).Some? ==> Progress(e)
  {
  }

  lemma ConsistentOutput(n: Naive, e: Event)
    requires (n.buffered ==> !n.committed) && Run(n.history).Some? && Run(n.history + [e]).Some?
    ensures var s := NaiveOutput(n, e);
            && s.err.None?
            && s.next == n.(history := n.history + [e],
                            committed := n.committed || (!n.buffered && NonEmptyDelta(e) && n.meta.Some?),
                            deliveredText := s.next.deliveredText, deliveredSummary := s.next.deliveredSummary)
  {
    RunAppend(n.history, e);
    hide Run, Apply, Delivers;
  }

  // ---------- one delivery for every output index ----------

  /** The transformed response keeps every message and reasoning item where it was. */
  ghost predicate KeepsStreamedItems(raw: seq<Item>, transformed: seq<Item>) {
    && |raw| == |transformed|
    && forall i | 0 <= i < |raw| :: Streams(raw[i]) ==> transformed[i] == raw[i]
  }

  lemma AcceptanceSurvives(st: State, raw: seq<Item>, transformed: seq<Item>)
    requires ItemsAccepted(st, raw) && KeepsStreamedItems(raw, transformed)
    ensures ItemsAccepted(st, transformed)
  {
  }

  /** For every stream of upstream events that commits, every terminal response that is accepted and every
      transformation that leaves messages and reasoning alone, the client ends up with exactly one
      complete delivery of each item it is finally sent. */
  lemma Converges(us: seq<Upstream>, raw: Response, sent: Response, i: int)
    requires var f := Feed(false, us); f.n.committed && FinalAccepted(f.n, raw)
    requires KeepsStreamedItems(raw.output, sent.output)
    ensures var f := Feed(false, us);
            Run(f.n.history).Some?
            && var st := Run(f.n.history).value.st;
            ClientRun(i, Absent, Shows(f.sent, st, sent)) == Some(FinalView(st, sent, i))
  {
    FeedForwardsItsHistory(false, us);
    var f := Feed(false, us);
    AcceptanceSurvives(Run(f.n.history).value.st, raw.output, sent.output);
    hide ItemsAccepted, KeepsStreamedItems, ClientRun, Run, FinalView, Shows;
    LiveThenReplay(f.n.history, sent, i);
  }

  /** A part of a delivered item is found under its own index, exactly when it has events at all. */
  lemma {:induction false} DeliveredAt(ch: Channel, live: map<int, PartState>, parts: seq<Part>, n: nat, k: nat)
    requires k < n <= |parts|
    ensures PartAt(DeliveredParts(ch, live, parts, n), k)
            == if Shown(ch, parts[k]) then Some(DeliveredPart(ch, k, live, parts[k])) else None
  {
    hide DeliveredLogs, TextPart, Shown, PartAt;
    var before, part := DeliveredParts(ch, live, parts, n - 1), parts[n - 1];
    assert before + [] == before;
    if Shown(ch, part) {
      LastPartAt(before, DeliveredPart(ch, n - 1, live, part));
    }
    if k < n - 1 {
      DeliveredAt(ch, live, parts, n - 1, k);
    } else {
      DeliveredShape(ch, live, parts, n - 1);
      NoPartAt(before, k);
    }
  }

  lemma {:induction false} NoPartAt(parts: seq<ClientPart>, k: int)
    requires forall j | 0 <= j < |parts| :: parts[j].index != k
    ensures PartAt(parts, k) == None
  {
    if parts != [] {
      NoPartAt(parts[..|parts| - 1], k);
    }
  }

  /** The same theorem in terms of the events alone: each item the client is finally sent is announced
      once and first, closed once and last; its parts are opened in increasing order, each shown part
      opened and closed once and, when it is text, its text closed once, with deltas that add up to the
      terminal text; an item that is no message is closed by the terminal item itself. */
  lemma EachItemOnce(us: seq<Upstream>, raw: Response, sent: Response, i: int)
    requires var f := Feed(false, us); f.n.committed && FinalAccepted(f.n, raw)
    requires KeepsStreamedItems(raw.output, sent.output)
    requires 0 <= i < |sent.output| && !sent.output[i].NonObject?
    ensures Run(Feed(false, us).n.history).Some?
    ensures var events := Shows(Feed(false, us).sent, Run(Feed(false, us).n.history).value.st, sent);
            var own := Projection(i, events);
            && own != [] && own[0].ItemAdded? && own[|own| - 1].ItemDone?
            && (!sent.output[i].MessageItem? ==> own[|own| - 1].item == sent.output[i])
            && Count(i, ItemOpens, events) == 1 && Count(i, ItemCloses, events) == 1
            && (forall a, b | 0 <= a < b < |Opened(i, events)| :: Opened(i, events)[a] < Opened(i, events)[b])
    ensures var events := Shows(Feed(false, us).sent, Run(Feed(false, us).n.history).value.st, sent);
            Streams(sent.output[i]) ==>
              forall k | 0 <= k < |PartsOf(sent.output[i])| :: PartOnce(i, k, ChannelOf(sent.output[i]), PartsOf(sent.output[i])[k], events)
  {
    hide Run, Feed, Shows, FinalAccepted, KeepsStreamedItems, ClientRun, Delivered, Projection, Count, Opened, PartOnce, Streams;
    Converges(us, raw, sent, i);
    var f := Feed(false, us);
    var st := Run(f.n.history).value.st;
    var events := Shows(f.sent, st, sent);
    DeliveredOnce(events, st, i, sent.output[i]);
  }

  lemma DeliveredOnce(events: seq<Event>, st: State, i: int, item: Item)
    requires !item.NonObject? && ClientRun(i, Absent, events) == Some(Delivered(st, i, item))
    ensures var own := Projection(i, events);
            && own != [] && own[0].ItemAdded? && own[|own| - 1].ItemDone?
            && (!item.MessageItem? ==> own[|own| - 1].item == item)
            && Count(i, ItemOpens, events) == 1 && Count(i, ItemCloses, events) == 1
            && (forall a, b | 0 <= a < b < |Opened(i, events)| :: Opened(i, events)[a] < Opened(i, events)[b])
    ensures Streams(item) ==> forall k | 0 <= k < |PartsOf(item)| :: PartOnce(i, k, ChannelOf(item), PartsOf(item)[k], events)
  {
    var c := Delivered(st, i, item);
    FinishedItem(i, events, c);
    assert forall k | 0 <= k < |c.parts| :: Indices(c.parts)[k] == c.parts[k].index;
    if Streams(item) {
      assert c.parts == DeliveredParts(ChannelOf(item), LiveParts(st, ChannelOf(item), i), PartsOf(item), |PartsOf(item)|);
    }
    hide ClientRun, Projection, Count, Opened, DeltaText, DeliveredParts, Delivered, PartOnce, PartTold, Indices;
    if Streams(item) {
      forall k | 0 <= k < |PartsOf(item)| ensures PartOnce(i, k, ChannelOf(item), PartsOf(item)[k], events) {
        assert PartTold(i, k, events, PartAt(c.parts, k));
        PartToldOnce(events, ChannelOf(item), LiveParts(st, ChannelOf(item), i), PartsOf(item), i, k);
      }
    }
  }

  lemma PartToldOnce(events: seq<Event>, ch: Channel, live: map<int, PartState>, parts: seq<Part>, i: int, k: nat)
    requires k < |parts| && PartTold(i, k, events, PartAt(DeliveredParts(ch, live, parts, |parts|), k))
    ensures PartOnce(i, k, ch, parts[k], events)
  {
    DeliveredAt(ch, live, parts, |parts|, k);
  }

  ghost predicate PartOnce(i: int, k: int, ch: Channel, part: Part, events: seq<Event>) {
    && Count(i, PartOpens(k), events) == Tally(Shown(ch, part))
    && Count(i, PartCloses(k), events) == Tally(Shown(ch, part))
    && Count(i, TextCloses(k), events) == Tally(Shown(ch, part) && TextPart(ch, part))
    && DeltaText(i, k, events) == (if Shown(ch, part) && TextPart(ch, part) then TextOf(part) else "")
  }

  /** No live frame of a reasoning item carries a ciphertext: it is announced without one, and never
      closed before the replay. */
  lemma {:induction false} LiveFramesHideCiphertext(history: seq<Event>)
    requires Run(history).Some?
    ensures forall e | e in Run(history).value.frames ::
              && (e.ItemAdded? ==> BlankOpening(e.item))
              && (e.ItemDone? ==> e.item.MessageItem?)
  {
    if history != [] {
      LiveFramesHideCiphertext(history[..|history| - 1]);
    }
  }

  // ---------- the buffered mode ----------

  /** The buffered machine in the place of an incremental one. */
  function AsBuffered(n: Naive): Naive {
    n.(buffered := true, committed := false, deliveredText := false, deliveredSummary := false)
  }

  lemma BufferedOutput(n: Naive, e: Event)
    requires !n.buffered && Run(n.history).Some? && Run(NaiveOutput(n, e).next.history).Some?
    ensures NaiveOutput(AsBuffered(n), e) == Step(AsBuffered(NaiveOutput(n, e).next), NaiveOutput(n, e).err, Quiet)
  {
    hide Run, Apply, Delivers;
    RunAppend(n.history, e);
  }

  lemma BufferedStep(n: Naive, u: Upstream)
    requires !n.buffered && Run(n.history).Some? && Run(NaiveStep(n, u).next.history).Some?
    ensures NaiveStep(AsBuffered(n), u).next == AsBuffered(NaiveStep(n, u).next)
    ensures NaiveStep(AsBuffered(n), u).err == NaiveStep(n, u).err
    ensures NaiveStep(AsBuffered(n), u).effect.Frames() == []
  {
    hide Run, NaiveOutput;
    if u.Output? {
      BufferedOutputStep(n, u);
    }
  }

  lemma BufferedOutputStep(n: Naive, u: Upstream)
    requires u.Output? && !n.buffered && Run(n.history).Some? && Run(NaiveStep(n, u).next.history).Some?
    ensures NaiveStep(AsBuffered(n), u).next == AsBuffered(NaiveStep(n, u).next)
    ensures NaiveStep(AsBuffered(n), u).err == NaiveStep(n, u).err
    ensures NaiveStep(AsBuffered(n), u).effect.Frames() == []
  {
    hide Run, NaiveOutput, Progress, Numbered;
    if !n.terminal && !n.sentinel && Progress(u.ev) && Numbered(u.ev) {
      BufferedOutput(n.(events := n.events + 1), u.ev);
    }
  }

  lemma HistoryGrows(n: Naive, u: Upstream)
    ensures NaiveStep(n, u).next.buffered == n.buffered
    ensures Run(NaiveStep(n, u).next.history).Some? ==> Run(n.history).Some?
  {
    StepCases(n, u);
    if u.Output? {
      RunAppend(n.history, u.ev);
    }
    hide Run, Apply, Delivers, NaiveStep;
  }

  /** As long as the recorded history is consistent (a committed machine's always is), buffered mode
      does the same as incremental mode, errors included, and forwards nothing. */
  lemma {:induction false} BufferedSimulates(us: seq<Upstream>)
    requires Run(Feed(false, us).n.history).Some?
    ensures !Feed(false, us).n.buffered
    ensures Feed(true, us) == Fed(AsBuffered(Feed(false, us).n), [], Feed(false, us).err)
  {
    if us != [] {
      hide Run, NaiveStep;
      var shorter, u := us[..|us| - 1], us[|us| - 1];
      var f := Feed(false, shorter);
      if f.err.Some? {
        BufferedSimulates(shorter);
      } else {
        HistoryGrows(f.n, u);
        BufferedSimulates(shorter);
        BufferedStep(f.n, u);
      }
    }
  }

  /** A committed turn and a buffered one therefore agree on every terminal response. */
  lemma BufferedAgrees(us: seq<Upstream>, r: Response)
    requires Feed(false, us).n.committed
    ensures Feed(true, us).err == Feed(false, us).err
    ensures Feed(true, us).sent == []
    ensures FinalAccepted(Feed(true, us).n, r) == FinalAccepted(Feed(false, us).n, r)
  {
    FeedForwardsItsHistory(false, us);
    BufferedSimulates(us);
  }
}
