/** What a client holds of an output item besides the text it has assembled: the closing snapshots, that of
    the item and those of its parts. Of what was closed live these are the live ones, which the terminal
    response need not repeat word for word. */
module Snapshots {
  import opened Responses
  import opened Delivery
  import opened Replay
  import opened Client
  import opened Acceptance
  import opened Convergence
  import opened Turn

  /** The assembled item, the item its closing event carried, and what each part's closing event carried. */
  datatype Held = Held(item: ClientItem, closing: Option<Item>, snapshots: map<int, Part>)

  const BLANK := Held(Absent, None, map[])

  function HeldStep(h: Held, e: Event): Option<Held> {
    match ClientStep(h.item, e)
    case None => None
    case Some(c) =>
      Some(Held(c, if e.ItemDone? then Some(e.item) else h.closing,
                if e.PartDone? then h.snapshots[e.part := e.content] else h.snapshots))
  }

  /** The strict client of output index `i`, with everything it holds. */
  function HeldRun(i: int, h: Held, events: seq<Event>): Option<Held>
    decreases |events|
  {
    if events == [] then Some(h)
    else if events[0].OutputIndex() != Some(i) then HeldRun(i, h, events[1..])
    else
      match HeldStep(h, events[0])
      case None => None
      case Some(h') => HeldRun(i, h', events[1..])
  }

  /** The last closing of the item, and of each part, among the events. */
  function ClosingIn(i: int, events: seq<Event>): Option<Item> {
    if events == [] then None
    else
      var later := ClosingIn(i, events[1..]);
      if later.Some? then later
      else if events[0].OutputIndex() == Some(i) && events[0].ItemDone? then Some(events[0].item)
      else None
  }

  function SnapshotIn(i: int, k: int, events: seq<Event>): Option<Part> {
    if events == [] then None
    else
      var later := SnapshotIn(i, k, events[1..]);
      if later.Some? then later
      else if events[0].OutputIndex() == Some(i) && events[0].PartDone? && events[0].part == k then Some(events[0].content)
      else None
  }

  /** `held` is what a client that held `h` holds after the events. */
  ghost predicate HoldsAfter(i: int, h: Held, events: seq<Event>, held: Held) {
    && held.closing == (if ClosingIn(i, events).Some? then ClosingIn(i, events) else h.closing)
    && (forall k :: k in held.snapshots <==> SnapshotIn(i, k, events).Some? || k in h.snapshots)
    && (forall k | k in held.snapshots ::
          held.snapshots[k] == if SnapshotIn(i, k, events).Some? then SnapshotIn(i, k, events).value else h.snapshots[k])
  }

  /** The strict client and its snapshots can be followed separately. */
  lemma {:induction false} HeldRunSplits(i: int, h: Held, events: seq<Event>)
    ensures HeldRun(i, h, events).Some? <==> ClientRun(i, h.item, events).Some?
    ensures HeldRun(i, h, events).Some? ==>
              && HeldRun(i, h, events).value.item == ClientRun(i, h.item, events).value
              && HoldsAfter(i, h, events, HeldRun(i, h, events).value)
    decreases |events|
  {
    hide ClientStep;
    if events != [] {
      if events[0].OutputIndex() != Some(i) {
        HeldRunSplits(i, h, events[1..]);
      } else if HeldStep(h, events[0]).Some? {
        HeldRunSplits(i, HeldStep(h, events[0]).value, events[1..]);
      }
    }
  }

  lemma {:induction false} ClosingAppend(i: int, k: int, a: seq<Event>, b: seq<Event>)
    ensures ClosingIn(i, a + b) == if ClosingIn(i, b).Some? then ClosingIn(i, b) else ClosingIn(i, a)
    ensures SnapshotIn(i, k, a + b) == if SnapshotIn(i, k, b).Some? then SnapshotIn(i, k, b) else SnapshotIn(i, k, a)
  {
    hide Event.OutputIndex;
    if a == [] {
      assert a + b == b;
    } else {
      assert (a + b)[1..] == a[1..] + b;
      ClosingAppend(i, k, a[1..], b);
    }
  }

  lemma {:induction false} CountAppend(i: int, m: Mark, a: seq<Event>, b: seq<Event>)
    ensures Count(i, m, a + b) == Count(i, m, a) + Count(i, m, b)
  {
    hide Event.OutputIndex, MarkOf;
    if a == [] {
      assert a + b == b;
    } else {
      assert (a + b)[1..] == a[1..] + b;
      CountAppend(i, m, a[1..], b);
    }
  }

  /** There is a closing exactly when one is counted. */
  lemma {:induction false} ClosingCounted(i: int, k: int, events: seq<Event>)
    ensures ClosingIn(i, events).Some? <==> Count(i, ItemCloses, events) > 0
    ensures SnapshotIn(i, k, events).Some? <==> Count(i, PartCloses(k), events) > 0
  {
    if events != [] {
      ClosingCounted(i, k, events[1..]);
    }
  }

  // ---------- closings in the replay ----------

  /** Every closing of index `i` among the events is that of the item, or of the shown part, itself. */
  ghost predicate ClosesAs(i: int, item: Item, events: seq<Event>) {
    forall e | e in events && e.OutputIndex() == Some(i) ::
      && (e.ItemDone? ==> e.item == item)
      && (e.PartDone? ==> Streams(item) && 0 <= e.part < |PartsOf(item)| && e.content == PartsOf(item)[e.part])
  }

  lemma {:induction false} ClosesAsIn(i: int, k: int, item: Item, events: seq<Event>)
    requires ClosesAs(i, item, events)
    ensures ClosingIn(i, events).Some? ==> ClosingIn(i, events) == Some(item)
    ensures SnapshotIn(i, k, events).Some? ==>
              Streams(item) && 0 <= k < |PartsOf(item)| && SnapshotIn(i, k, events) == Some(PartsOf(item)[k])
  {
    hide Event.OutputIndex;
    if events != [] {
      assert events[0] in events;
      assert forall e | e in events[1..] :: e in events;
      ClosesAsIn(i, k, item, events[1..]);
    }
  }

  lemma PartClosesAs(ch: Channel, i: int, id: string, k: int, part: Part)
    ensures forall e | e in PartEvents(ch, i, id, k, part) :: !e.ItemDone? && (e.PartDone? ==> e.part == k && e.content == part)
  {
    hide TextPart, Shown, TextOf, LogsOf, Opening;
  }

  lemma {:induction false} PartsCloseAs(ch: Channel, i: int, id: string, parts: seq<Part>, n: nat)
    requires n <= |parts|
    ensures forall e | e in PartsEvents(ch, i, id, parts, n) ::
              !e.ItemDone? && (e.PartDone? ==> 0 <= e.part < |parts| && e.content == parts[e.part])
  {
    hide PartEvents;
    if n > 0 {
      PartsCloseAs(ch, i, id, parts, n - 1);
      PartClosesAs(ch, i, id, n - 1, parts[n - 1]);
    }
  }

  lemma ItemClosesAs(i: int, item: Item)
    ensures ClosesAs(i, item, ItemEvents(i, item, true))
  {
    hide PartsEvents, Announced;
    if Streams(item) {
      PartsCloseAs(ChannelOf(item), i, item.Id(), PartsOf(item), |PartsOf(item)|);
    }
  }

  lemma {:induction false} OutputClosesAs(output: seq<Item>, n: nat, i: int)
    requires n <= |output| && 0 <= i < |output|
    ensures ClosesAs(i, output[i], OutputEvents(output, n, true))
  {
    hide ItemEvents;
    if n > 0 {
      OutputClosesAs(output, n - 1, i);
      if i == n - 1 {
        ItemClosesAs(i, output[i]);
      } else {
        ItemForeign(i, n - 1, output[n - 1], true);
      }
    }
  }

  /** The filter drops closings or leaves them as they are. */
  lemma {:induction false} KeptClosesAs(st: State, i: int, item: Item, events: seq<Event>)
    requires ClosesAs(i, item, events)
    ensures ClosesAs(i, item, Kept(st, events))
  {
    if events != [] {
      assert events[0] in events;
      assert forall e | e in events[1..] :: e in events;
      KeptClosesAs(st, i, item, events[1..]);
      KeepsClosing(st, events[0]);
    }
    hide Keep, Event.OutputIndex;
  }

  lemma KeepsClosing(st: State, e: Event)
    ensures Keep(st, e).Some? ==>
              var kept := Keep(st, e).value;
              && kept.OutputIndex() == e.OutputIndex()
              && (kept.ItemDone? || kept.PartDone? ==> kept == e)
  {
  }

  // ---------- what is held in the end ----------

  /** What the client finally holds as the closing of an item: the live one, if it was closed live. */
  function FinalClosing(i: int, live: seq<Event>, item: Item): Item {
    ClosingIn(i, live).GetOr(item)
  }

  function FinalSnapshot(i: int, k: int, live: seq<Event>, part: Part): Part {
    SnapshotIn(i, k, live).GetOr(part)
  }

  function FinalSnapshots(i: int, live: seq<Event>, item: Item): map<int, Part> {
    if Streams(item) then
      map k | 0 <= k < |PartsOf(item)| && Shown(ChannelOf(item), PartsOf(item)[k]) :: FinalSnapshot(i, k, live, PartsOf(item)[k])
    else map[]
  }

  /** Everything the client finally holds of index `i`. */
  function FinalHeld(live: seq<Event>, st: State, r: Response, i: int): Held {
    if 0 <= i < |r.output| && !r.output[i].NonObject? then
      var item := r.output[i];
      Held(Delivered(st, i, item), Some(FinalClosing(i, live, item)), FinalSnapshots(i, live, item))
    else BLANK
  }

  lemma ReplayClosesAs(st: State, r: Response, i: int)
    requires 0 <= i < |r.output|
    ensures ClosesAs(i, r.output[i], Kept(st, Synthetic(r, false, true)))
  {
    hide OutputEvents, Kept;
    var items := OutputEvents(r.output, |r.output|, true);
    OutputClosesAs(r.output, |r.output|, i);
    assert Synthetic(r, false, true) == items + [TerminalEvent(r)];
    assert ClosesAs(i, r.output[i], items + [TerminalEvent(r)]);
    KeptClosesAs(st, i, r.output[i], Synthetic(r, false, true));
  }

  /** One closing in all, and later ones only of what has not been closed live: what is held is the live
      snapshot, or else the terminal one. */
  lemma ClosedOnce(live: seq<Event>, replay: seq<Event>, i: int, k: int, item: Item)
    requires ClosesAs(i, item, replay)
    ensures Count(i, ItemCloses, live + replay) == 1 ==> ClosingIn(i, live + replay) == Some(FinalClosing(i, live, item))
    ensures Count(i, PartCloses(k), live + replay) == 0 ==> SnapshotIn(i, k, live + replay) == None
    ensures Count(i, PartCloses(k), live + replay) == 1 && Streams(item) && 0 <= k < |PartsOf(item)| ==>
              SnapshotIn(i, k, live + replay) == Some(FinalSnapshot(i, k, live, PartsOf(item)[k]))
  {
    hide Count, ClosingIn, SnapshotIn, ClosesAs;
    ClosingAppend(i, k, live, replay);
    CountAppend(i, ItemCloses, live, replay);
    CountAppend(i, PartCloses(k), live, replay);
    ClosingCounted(i, k, live);
    ClosingCounted(i, k, replay);
    ClosingCounted(i, k, live + replay);
    ClosesAsIn(i, k, item, replay);
  }

  lemma {:induction false} DeliveredOutside(ch: Channel, live: map<int, PartState>, parts: seq<Part>, n: nat, k: int)
    requires n <= |parts| && !(0 <= k < n)
    ensures PartAt(DeliveredParts(ch, live, parts, n), k) == None
  {
    hide DeliveredParts;
    DeliveredShape(ch, live, parts, n);
    var delivered := DeliveredParts(ch, live, parts, n);
    forall j | 0 <= j < |delivered| ensures delivered[j].index != k {
      assert 0 <= delivered[j].index < n;
    }
    NoPartAt(delivered, k);
  }

  /** How often each part of a delivered item is closed. */
  lemma DeliveredCounts(events: seq<Event>, st: State, i: int, item: Item, k: int)
    requires !item.NonObject? && ClientRun(i, Absent, events) == Some(Delivered(st, i, item))
    ensures Count(i, ItemCloses, events) == 1
    ensures Count(i, PartCloses(k), events)
            == Tally(Streams(item) && 0 <= k < |PartsOf(item)| && Shown(ChannelOf(item), PartsOf(item)[k]))
  {
    hide ClientRun, Count, Projection, Opened, DeltaText, DeliveredParts, DeliveredPart, Shown, Increasing, PartAt;
    var c := Delivered(st, i, item);
    FinishedItem(i, events, c);
    assert PartTold(i, k, events, PartAt(c.parts, k));
    if Streams(item) {
      var ch, live, parts := ChannelOf(item), LiveParts(st, ChannelOf(item), i), PartsOf(item);
      assert c.parts == DeliveredParts(ch, live, parts, |parts|);
      if 0 <= k < |parts| {
        DeliveredAt(ch, live, parts, |parts|, k);
        DeliveredPartIsDone(ch, k, live, parts[k]);
      } else {
        DeliveredOutside(ch, live, parts, |parts|, k);
      }
    } else {
      NoPartAt([], k);
    }
  }

  lemma DeliveredPartIsDone(ch: Channel, k: int, live: map<int, PartState>, part: Part)
    ensures DeliveredPart(ch, k, live, part).done
  {
  }

  lemma NothingClosed(i: int, events: seq<Event>, k: int)
    requires ClientRun(i, Absent, events) == Some(Absent)
    ensures ClosingIn(i, events) == None && SnapshotIn(i, k, events) == None
  {
    assert Increasing(PartsIn(Absent));
    RunCounts(i, Absent, events, ItemCloses);
    RunCounts(i, Absent, events, PartCloses(k));
    ClosingCounted(i, k, events);
    hide ClientRun, Count, ClosingIn, SnapshotIn, Increasing;
  }

  /** Live frames and filtered replay, for a client that keeps the closing snapshots: it is delivered every
      item once, and holds of whatever was closed live the live snapshot, of all the rest the terminal
      one. */
  lemma HeldInTheEnd(history: seq<Event>, r: Response, i: int)
    requires Run(history).Some? && ItemsAccepted(Run(history).value.st, r.output)
    ensures var ran := Run(history).value;
            HeldRun(i, BLANK, Shows(ran.frames, ran.st, r)) == Some(FinalHeld(ran.frames, ran.st, r, i))
  {
    hide Run, ItemsAccepted, ClientRun, Delivered, HoldsAfter, Shown, HeldRun, Kept, Synthetic, ClosesAs, FinalSnapshot, FinalClosing;
    var ran := Run(history).value;
    var live, replay := ran.frames, Kept(ran.st, Synthetic(r, false, true));
    LiveThenReplay(history, r, i);
    HeldRunSplits(i, BLANK, live + replay);
    var held := HeldRun(i, BLANK, live + replay).value;
    if 0 <= i < |r.output| && !r.output[i].NonObject? {
      var item := r.output[i];
      ReplayClosesAs(ran.st, r, i);
      forall k ensures Count(i, ItemCloses, live + replay) == 1
                 && SnapshotIn(i, k, live + replay)
                    == (if Streams(item) && 0 <= k < |PartsOf(item)| && Shown(ChannelOf(item), PartsOf(item)[k]) then
                          Some(FinalSnapshot(i, k, live, PartsOf(item)[k]))
                        else None)
      {
        DeliveredCounts(live + replay, ran.st, i, item, k);
        ClosedOnce(live, replay, i, k, item);
      }
      DeliveredCounts(live + replay, ran.st, i, item, 0);
      ClosedOnce(live, replay, i, 0, item);
      HeldIs(i, live, live + replay, item, held);
    } else {
      NothingDelivered(ran.st, r, i);
      NothingClosed(i, live + replay, 0);
      forall k ensures ClosingIn(i, live + replay) == None && SnapshotIn(i, k, live + replay) == None {
        NothingClosed(i, live + replay, k);
      }
      NothingHeld(i, live + replay, held);
    }
  }

  lemma HeldIs(i: int, live: seq<Event>, events: seq<Event>, item: Item, held: Held)
    requires HoldsAfter(i, BLANK, events, held) && ClosingIn(i, events) == Some(FinalClosing(i, live, item))
    requires forall k :: SnapshotIn(i, k, events)
               == (if Streams(item) && 0 <= k < |PartsOf(item)| && Shown(ChannelOf(item), PartsOf(item)[k]) then
                     Some(FinalSnapshot(i, k, live, PartsOf(item)[k]))
                   else None)
    ensures held.closing == Some(FinalClosing(i, live, item)) && held.snapshots == FinalSnapshots(i, live, item)
  {
    hide ClosingIn, SnapshotIn, FinalSnapshot, FinalClosing, Shown;
    var wanted := FinalSnapshots(i, live, item);
    forall k ensures k in held.snapshots <==> k in wanted {
      assert SnapshotIn(i, k, events).Some? <==> k in wanted;
    }
    forall k | k in wanted ensures held.snapshots[k] == wanted[k] {
      assert SnapshotIn(i, k, events) == Some(wanted[k]);
    }
  }

  lemma NothingHeld(i: int, events: seq<Event>, held: Held)
    requires HoldsAfter(i, BLANK, events, held) && ClosingIn(i, events) == None
    requires forall k :: SnapshotIn(i, k, events) == None
    ensures held.closing == None && held.snapshots == map[]
  {
    hide ClosingIn, SnapshotIn;
    forall k ensures k !in held.snapshots {
      assert SnapshotIn(i, k, events) == None;
    }
  }

  lemma NothingDelivered(st: State, r: Response, i: int)
    requires !(0 <= i < |r.output| && !r.output[i].NonObject?)
    ensures FinalView(st, r, i) == Absent
  {
  }

  // ---------- what snapshots cannot differ in ----------

  /** A held snapshot has the kind and, for text, the text that the client has assembled. */
  predicate Agrees(item: ClientItem, k: int, snapshot: Part) {
    var p := PartAt(PartsIn(item), k);
    p.Some? && p.value.done && snapshot.Kind() == p.value.kind && (p.value.isText ==> TextOf(snapshot) == p.value.text)
  }

  ghost predicate HeldOk(h: Held) {
    Increasing(PartsIn(h.item)) && forall k | k in h.snapshots :: Agrees(h.item, k, h.snapshots[k])
  }

  lemma AddedAgrees(c: ClientItem, e: Event, k: int, snapshot: Part)
    requires e.PartAdded? && Increasing(PartsIn(c)) && ClientStep(c, e).Some? && Agrees(c, k, snapshot)
    ensures Agrees(ClientStep(c, e).value, k, snapshot)
  {
    var p := ClientPart(e.part, e.content.Kind(), TextPart(e.ch, e.content), "", [], false, false);
    assert ClientStep(c, e).value.parts == c.parts + [p];
    NoPartBeyond(c.parts, e.part);
    LastPartAt(c.parts, p);
    hide ClientStep, Increasing, TextPart, PartAt;
  }

  lemma TextAgrees(c: ClientItem, e: Event, k: int, snapshot: Part)
    requires (e.TextDelta? || e.TextDone? || e.PartDone?) && ClientStep(c, e).Some?
    ensures Agrees(c, k, snapshot) ==> Agrees(ClientStep(c, e).value, k, snapshot)
    ensures e.PartDone? ==> Agrees(ClientStep(c, e).value, e.part, e.content)
  {
    var c' := ClientStep(c, e).value;
    var front, q, q' := c.parts[..|c.parts| - 1], Last(c.parts), Last(c'.parts);
    assert c'.parts == front + [q'] && c.parts == front + [q];
    assert q'.index == q.index == e.part && !q.done;
    LastPartAt(front, q);
    LastPartAt(front, q');
    if e.PartDone? {
      assert q'.done && e.content.Kind() == q'.kind && (q'.isText ==> TextOf(e.content) == q'.text);
    }
    hide ClientStep, PartAt, TextPart, TextOf;
  }

  lemma HeldStepOk(h: Held, e: Event)
    requires HeldOk(h) && HeldStep(h, e).Some?
    ensures HeldOk(HeldStep(h, e).value)
  {
    StepIncreasing(h.item, e);
    var h' := HeldStep(h, e).value;
    forall k | k in h'.snapshots ensures Agrees(h'.item, k, h'.snapshots[k]) {
      if e.PartAdded? {
        AddedAgrees(h.item, e, k, h.snapshots[k]);
      } else if e.IsPartEvent() {
        TextAgrees(h.item, e, k, h'.snapshots[k]);
      } else {
        OtherAgrees(h.item, e, k, h.snapshots[k]);
      }
    }
    hide ClientStep, Increasing, Agrees;
  }

  lemma OtherAgrees(c: ClientItem, e: Event, k: int, snapshot: Part)
    requires !e.IsPartEvent() && ClientStep(c, e).Some? && Agrees(c, k, snapshot)
    ensures Agrees(ClientStep(c, e).value, k, snapshot)
  {
    hide ClosesWith, BlankOpening, PartAt;
  }

  lemma {:induction false} HeldRunOk(i: int, h: Held, events: seq<Event>)
    requires HeldOk(h) && HeldRun(i, h, events).Some?
    ensures HeldOk(HeldRun(i, h, events).value)
    decreases |events|
  {
    hide HeldOk, HeldStep;
    if events != [] {
      if events[0].OutputIndex() != Some(i) {
        HeldRunOk(i, h, events[1..]);
      } else {
        HeldStepOk(h, events[0]);
        HeldRunOk(i, HeldStep(h, events[0]).value, events[1..]);
      }
    }
  }

  // ---------- whole turns ----------

  /** For every committing feed, accepted terminal response and transformation that leaves messages and
      reasoning alone: what the client finally holds of every output index. */
  lemma HeldConverges(us: seq<Upstream>, raw: Response, sent: Response, i: int)
    requires var f := Feed(false, us); f.n.committed && FinalAccepted(f.n, raw)
    requires KeepsStreamedItems(raw.output, sent.output)
    ensures var f := Feed(false, us);
            Run(f.n.history).Some?
            && var st := Run(f.n.history).value.st;
            HeldRun(i, BLANK, Shows(f.sent, st, sent)) == Some(FinalHeld(f.sent, st, sent, i))
  {
    FeedForwardsItsHistory(false, us);
    var f := Feed(false, us);
    AcceptanceSurvives(Run(f.n.history).value.st, raw.output, sent.output);
    hide ItemsAccepted, KeepsStreamedItems, HeldRun, Run, FinalHeld, Shows;
    HeldInTheEnd(f.n.history, sent, i);
  }

  /** The snapshots repeat the terminal item and all its shown parts. */
  ghost predicate HoldsItem(held: Held, item: Item) {
    && held.closing == Some(item)
    && (Streams(item) ==>
          forall k | 0 <= k < |PartsOf(item)| && Shown(ChannelOf(item), PartsOf(item)[k]) ::
            k in held.snapshots && held.snapshots[k] == PartsOf(item)[k])
  }

  /** Whatever was closed live was closed as the terminal response has it. */
  ghost predicate ClosedAsFinal(i: int, live: seq<Event>, item: Item) {
    && (ClosingIn(i, live).Some? ==> ClosingIn(i, live) == Some(item))
    && (Streams(item) ==>
          forall k | 0 <= k < |PartsOf(item)| && Shown(ChannelOf(item), PartsOf(item)[k]) && SnapshotIn(i, k, live).Some? ::
            SnapshotIn(i, k, live) == Some(PartsOf(item)[k]))
  }

  lemma FinalHeldExactly(live: seq<Event>, st: State, r: Response, i: int)
    requires 0 <= i < |r.output| && !r.output[i].NonObject?
    ensures HoldsItem(FinalHeld(live, st, r, i), r.output[i]) <==> ClosedAsFinal(i, live, r.output[i])
  {
    hide ClosingIn, SnapshotIn, Shown, Delivered;
    var item, held := r.output[i], FinalHeld(live, st, r, i);
    if Streams(item) {
      forall k | 0 <= k < |PartsOf(item)| && Shown(ChannelOf(item), PartsOf(item)[k])
        ensures k in held.snapshots
        ensures held.snapshots[k] == PartsOf(item)[k] <==>
                  (SnapshotIn(i, k, live).Some? ==> SnapshotIn(i, k, live) == Some(PartsOf(item)[k]))
      {
        assert held.snapshots[k] == FinalSnapshot(i, k, live, PartsOf(item)[k]);
      }
    }
  }

  /** A client that keeps the closing snapshots is given the terminal item itself, with all its parts, if and
      only if whatever was closed live was closed with the same contents: the check of the terminal response
      compares identity, kinds, texts and probabilities, nothing else. */
  lemma SnapshotsDelivered(us: seq<Upstream>, raw: Response, sent: Response, i: int)
    requires var f := Feed(false, us); f.n.committed && FinalAccepted(f.n, raw)
    requires KeepsStreamedItems(raw.output, sent.output)
    requires 0 <= i < |sent.output| && !sent.output[i].NonObject?
    ensures Run(Feed(false, us).n.history).Some?
    ensures var f := Feed(false, us);
            var held := HeldRun(i, BLANK, Shows(f.sent, Run(f.n.history).value.st, sent));
            && held.Some?
            && (HoldsItem(held.value, sent.output[i]) <==> ClosedAsFinal(i, f.sent, sent.output[i]))
            && (!sent.output[i].MessageItem? ==> held.value.closing == Some(sent.output[i]))
  {
    hide Feed, FinalAccepted, KeepsStreamedItems, Run, HeldRun, Shows, HoldsItem, ClosedAsFinal;
    HeldConverges(us, raw, sent, i);
    FeedForwardsItsHistory(false, us);
    var f := Feed(false, us);
    var st := Run(f.n.history).value.st;
    FinalHeldExactly(f.sent, st, sent, i);
    if !sent.output[i].MessageItem? {
      OnlyMessagesCloseLive(f.n, raw, sent, i);
    }
  }

  lemma OnlyMessagesCloseLive(n: Naive, raw: Response, sent: Response, i: int)
    requires n.committed && FinalAccepted(n, raw) && KeepsStreamedItems(raw.output, sent.output) && Run(n.history).Some?
    requires 0 <= i < |sent.output| && !sent.output[i].MessageItem?
    ensures ClosingIn(i, Run(n.history).value.frames) == None
  {
    hide Run, ClientRun, Count, ClosingIn, StateOk, PartsMirrored, ValidateItem;
    var ran := Run(n.history).value;
    AcceptanceSurvives(ran.st, raw.output, sent.output);
    RunMirrored(n.history, i);
    assert Increasing(PartsIn(Absent));
    RunCounts(i, Absent, ran.frames, ItemCloses);
    ClosingCounted(i, 0, ran.frames);
  }

  /** A snapshot may differ from the terminal part in contents that are not compared, but never in its kind
      nor, for a text part, in its text. */
  lemma SnapshotsAgree(us: seq<Upstream>, raw: Response, sent: Response, i: int, k: int)
    requires var f := Feed(false, us); f.n.committed && FinalAccepted(f.n, raw)
    requires KeepsStreamedItems(raw.output, sent.output)
    requires 0 <= i < |sent.output| && Streams(sent.output[i]) && 0 <= k < |PartsOf(sent.output[i])|
    requires Shown(ChannelOf(sent.output[i]), PartsOf(sent.output[i])[k])
    ensures Run(Feed(false, us).n.history).Some?
    ensures var f := Feed(false, us);
            var held := HeldRun(i, BLANK, Shows(f.sent, Run(f.n.history).value.st, sent));
            var part := PartsOf(sent.output[i])[k];
            && held.Some? && k in held.value.snapshots
            && held.value.snapshots[k].Kind() == part.Kind()
            && (TextPart(ChannelOf(sent.output[i]), part) ==> TextOf(held.value.snapshots[k]) == TextOf(part))
  {
    hide Feed, FinalAccepted, KeepsStreamedItems, Run, HeldRun, Shows, FinalSnapshot, FinalClosing, DeliveredParts, PartAt, Shown, TextPart;
    HeldConverges(us, raw, sent, i);
    var f := Feed(false, us);
    var st, item := Run(f.n.history).value.st, sent.output[i];
    var events := Shows(f.sent, st, sent);
    NothingOk();
    HeldRunOk(i, BLANK, events);
    var held := HeldRun(i, BLANK, events).value;
    DeliveredAt(ChannelOf(item), LiveParts(st, ChannelOf(item), i), PartsOf(item), |PartsOf(item)|, k);
    assert PartsIn(held.item) == DeliveredParts(ChannelOf(item), LiveParts(st, ChannelOf(item), i), PartsOf(item), |PartsOf(item)|);
    assert Agrees(held.item, k, held.snapshots[k]);
  }

  lemma NothingOk()
    ensures HeldOk(BLANK)
  {
  }
}
