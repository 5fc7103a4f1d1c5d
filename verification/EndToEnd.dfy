/** The delivery machine and the downstream session together: what a client has received once a turn has
    been finished, whatever else the session wrote in between. */
module EndToEnd {
  import opened Responses
  import opened Delivery
  import opened Replay
  import opened Client
  import opened Convergence
  import opened Acceptance
  import opened Session
  import opened Turn
  import opened Attempts
  import opened Snapshots
  import opened Relay
  import opened Batch
  import Catalog

  /** The events about output items. */
  function Items(events: seq<Event>): seq<Event> {
    if events == [] then []
    else (if CarriesResponse(events[0]) then [] else [events[0]]) + Items(events[1..])
  }

  lemma {:induction false} ItemsAppend(a: seq<Event>, b: seq<Event>)
    ensures Items(a + b) == Items(a) + Items(b)
  {
    if a == [] {
      assert a + b == b;
    } else {
      assert (a + b)[1..] == a[1..] + b;
      ItemsAppend(a[1..], b);
    }
  }

  lemma {:induction false} AllItems(events: seq<Event>)
    requires AboutItems(events)
    ensures Items(events) == events
  {
    if events != [] {
      assert events[0] in events;
      assert forall e | e in events[1..] :: e in events;
      AllItems(events[1..]);
      assert [events[0]] + events[1..] == events;
    }
  }

  /** A client that follows one output index does not look at the other events. */
  lemma {:induction false} ClientReadsItems(i: int, c: ClientItem, events: seq<Event>)
    ensures ClientRun(i, c, events) == ClientRun(i, c, Items(events))
    decreases |events|
  {
    if events != [] {
      if events[0].OutputIndex() != Some(i) {
        ClientReadsItems(i, c, events[1..]);
      } else if ClientStep(c, events[0]).Some? {
        ClientReadsItems(i, ClientStep(c, events[0]).value, events[1..]);
      }
      if CarriesResponse(events[0]) {
        assert Items(events) == Items(events[1..]);
      } else {
        assert Items(events)[1..] == Items(events[1..]);
      }
    }
  }

  /** Nor does it when it keeps the closing snapshots. */
  lemma {:induction false} HeldReadsItems(i: int, h: Held, events: seq<Event>)
    ensures HeldRun(i, h, events) == HeldRun(i, h, Items(events))
    decreases |events|
  {
    hide HeldStep;
    if events != [] {
      if events[0].OutputIndex() != Some(i) {
        HeldReadsItems(i, h, events[1..]);
      } else if HeldStep(h, events[0]).Some? {
        HeldReadsItems(i, HeldStep(h, events[0]).value, events[1..]);
      }
      if CarriesResponse(events[0]) {
        assert Items(events) == Items(events[1..]);
      } else {
        assert Items(events)[1..] == Items(events[1..]);
      }
    }
  }

  /** Everything the deliveries among the operations hand over, in order. */
  function Offered(ops: seq<Op>): seq<Event> {
    if ops == [] then []
    else Offered(ops[..|ops| - 1]) + (if ops[|ops| - 1].Deliver? then ops[|ops| - 1].frames else [])
  }

  lemma {:induction false} OfferedHolds(ops: seq<Op>, op: Op)
    requires op in ops && op.Deliver?
    ensures forall e | e in op.frames :: e in Offered(ops)
  {
    var last := ops[|ops| - 1];
    if op != last {
      OfferedHolds(ops[..|ops| - 1], op);
    }
  }

  lemma NoItem(e: Event)
    requires CarriesResponse(e)
    ensures Items([e]) == []
  {
    assert [e][1..] == [];
  }

  lemma {:induction false} NoItems(events: seq<Event>)
    requires forall e | e in events :: CarriesResponse(e)
    ensures Items(events) == []
  {
    if events != [] {
      assert events[0] in events;
      assert forall e | e in events[1..] :: e in events;
      NoItems(events[1..]);
    }
  }

  lemma EmitAdds(v: View, events: seq<Event>, done: bool, accepts: bool)
    requires !Silent(Emit(v, events, done, accepts))
    ensures !Silent(v)
    ensures Items(Bare(Emit(v, events, done, accepts).accepted)) == Items(Bare(v.accepted)) + Items(events)
  {
    BareAppend(v.accepted, events, v.sequence);
    ItemsAppend(Bare(v.accepted), events);
    hide Items, Bare, Stamped;
  }

  lemma OpeningAdds(v: View, meta: Option<Response>, accepts: bool)
    requires !Silent(OpenLocked(v, meta, accepts))
    ensures !Silent(v) && OpenLocked(v, meta, accepts).started
    ensures Items(Bare(OpenLocked(v, meta, accepts).accepted)) == Items(Bare(v.accepted))
  {
    if !v.started {
      var opening := OpeningOf(v, meta);
      var prologue := [Created(opening), InProgress(opening)];
      EmitAdds(v.(responseId := opening.id, started := true), prologue, false, accepts);
      NoItems(prologue);
    }
  }

  lemma DeliveryAdds(v: View, op: Op)
    requires op.Deliver? && Proper(op) && !Silent(v) && !Silent(Next(v, op))
    ensures Items(Bare(Next(v, op).accepted)) == Items(Bare(v.accepted)) + op.frames && Next(v, op).started
  {
    hide Items, Bare, Stamped, OpeningOf;
    var o := OpenLocked(Meanwhile(v, op.forcedFirst), op.meta, op.acceptsOpening);
    EmitAdds(Meanwhile(o, op.forcedNext), op.frames, false, op.accepts);
    OpeningAdds(Meanwhile(v, op.forcedFirst), op.meta, op.acceptsOpening);
    AllItems(op.frames);
  }

  lemma TickAdds(v: View, op: Op)
    requires op.Tick? && !Silent(v) && !Silent(Next(v, op))
    ensures Items(Bare(Next(v, op).accepted)) == Items(Bare(v.accepted)) && (v.started ==> Next(v, op).started)
  {
    hide Items, Bare, Stamped, OpeningOf;
    if !v.started {
      OpeningAdds(v, None, op.accepts);
    } else if op.idle {
      var beat := [InProgress(Placeholder(v, "in_progress"))];
      EmitAdds(v, beat, false, op.accepts);
      NoItem(beat[0]);
    }
  }

  /** What one operation adds to a session that is still open afterwards. */
  lemma OpenStepAdds(v: View, op: Op)
    requires Proper(op) && !Silent(Next(v, op))
    ensures !Silent(v)
    ensures Items(Bare(Next(v, op).accepted)) == Items(Bare(v.accepted)) + (if op.Deliver? then op.frames else [])
    ensures (v.started ==> Next(v, op).started) && (op.Deliver? ==> Next(v, op).started)
  {
    hide Items, Bare, FinishEvents, FailEvents, OpenLocked, Stamped;
    if Silent(v) {
      SilentStep(v, op);
    }
    if op.Start? {
      if v.heartbeat {
        OpeningAdds(v, None, op.accepts);
      }
    } else if op.Open? {
      if v.heartbeat {
        OpeningAdds(Meanwhile(v, op.forcedMid), op.meta, op.accepts);
      }
    } else if op.Deliver? {
      DeliveryAdds(v, op);
    } else if op.Tick? {
      TickAdds(v, op);
    }
  }

  /** As long as a session is open the client has received exactly what was handed over, in order and
      without loss, whatever prologue and heartbeats surround it. */
  lemma {:induction false} NothingIsLost(id: string, heartbeat: bool, ops: seq<Op>)
    requires forall op | op in ops :: Proper(op)
    requires !Silent(RunOps(Initial(id, heartbeat), ops))
    ensures var v := RunOps(Initial(id, heartbeat), ops);
            Items(Bare(v.accepted)) == Offered(ops) && (Offered(ops) != [] ==> v.started)
  {
    hide Next, Silent;
    if ops == [] {
      assert Bare([]) == [];
    } else {
      var shorter := ops[..|ops| - 1];
      assert forall op | op in shorter :: op in ops;
      OpenStepAdds(RunOps(Initial(id, heartbeat), shorter), ops[|ops| - 1]);
      NothingIsLost(id, heartbeat, shorter);
    }
  }

  /** The machine never forwards an event that carries a response. */
  lemma {:induction false} FramesAreAboutItems(history: seq<Event>)
    requires Run(history).Some?
    ensures AboutItems(Run(history).value.frames)
  {
    if history != [] {
      FramesAreAboutItems(history[..|history| - 1]);
    }
  }

  lemma FinishAdds(v: View, response: Response, st: State)
    requires v.started
    ensures Items(FinishEvents(v, response, Some(st), true)) == Items(Kept(st, Synthetic(response, false, true)))
  {
    hide Items, Kept, Synthetic, OutputEvents;
    KeptItems(st, response);
    KeptItems(st, response.(id := v.responseId));
  }

  lemma KeptItems(st: State, r: Response)
    ensures Items(Kept(st, Synthetic(r, false, true))) == Kept(st, OutputEvents(r.output, |r.output|, true))
  {
    hide OutputEvents, Kept, Items;
    var items := OutputEvents(r.output, |r.output|, true);
    OutputAboutItems(r.output, |r.output|, true);
    KeptAboutItems(st, items);
    assert Synthetic(r, false, true) == items + [TerminalEvent(r)];
    KeptAppend(st, items, [TerminalEvent(r)]);
    KeptTerminal(st, TerminalEvent(r));
    ItemsAppend(Kept(st, items), [TerminalEvent(r)]);
    AllItems(Kept(st, items));
    NoItem(TerminalEvent(r));
  }

  lemma OfferedIsProper(ops: seq<Op>, history: seq<Event>)
    requires Run(history).Some? && Offered(ops) == Run(history).value.frames
    ensures forall op | op in ops :: Proper(op)
  {
    FramesAreAboutItems(history);
    forall op | op in ops && op.Deliver? ensures Proper(op) {
      OfferedHolds(ops, op);
    }
  }

  /** The main theorem. A turn commits, its terminal response is accepted and transformed without
      touching messages and reasoning, its frames are handed to a session in order, and the session is
      finished before it has been closed. Then, over every interleaving with prologues and heartbeats, the
      accepted stream is ordered and has ended, and a client that follows any output index ends up with
      exactly one complete delivery of the item it was finally sent: the terminal texts, and the closing
      snapshots of whatever was closed live, the terminal ones of all the rest. */
  lemma OneDelivery(us: seq<Upstream>, raw: Response, sent: Response, id: string, heartbeat: bool, ops: seq<Op>, late: bool, i: int)
    requires Feed(false, us).n.committed && FinalAccepted(Feed(false, us).n, raw)
    requires KeepsStreamedItems(raw.output, sent.output)
    requires Offered(ops) == Feed(false, us).sent && !Silent(RunOps(Initial(id, heartbeat), ops))
    ensures Run(Feed(false, us).n.history).Some?
    ensures var st := Run(Feed(false, us).n.history).value.st;
            var v := Next(RunOps(Initial(id, heartbeat), ops), Finish(sent, Some(st), true, false, true, false, late));
            && StreamOk(v) && v.ended
            && ClientRun(i, Absent, Bare(v.accepted)) == Some(FinalView(st, sent, i))
            && HeldRun(i, BLANK, Bare(v.accepted)) == Some(FinalHeld(Feed(false, us).sent, st, sent, i))
  {
    hide Feed, FinalAccepted, KeepsStreamedItems, Run, RunOps, Offered, StreamOk, FinalView, FinalHeld, ClientRun, HeldRun, Items,
      FinishEvents, Stamped, Bare, Shows, AboutItems;
    HeldConverges(us, raw, sent, i);
    Converges(us, raw, sent, i);
    FeedForwardsItsHistory(false, us);
    FlagsTellWhatWasDelivered(false, us);
    var st := Run(Feed(false, us).n.history).value.st;
    var v := RunOps(Initial(id, heartbeat), ops);
    OfferedIsProper(ops, Feed(false, us).n.history);
    FramesAreAboutItems(Feed(false, us).n.history);
    NothingIsLost(id, heartbeat, ops);
    EveryInterleavingIsOrdered(id, heartbeat, ops);
    var finish := Finish(sent, Some(st), true, false, true, false, late);
    StepKeepsOrder(v, finish);
    FinishedView(v, Feed(false, us).sent, sent, st, late);
    var events := Bare(Next(v, finish).accepted);
    ClientReadsItems(i, Absent, events);
    ClientReadsItems(i, Absent, Shows(Feed(false, us).sent, st, sent));
    HeldReadsItems(i, BLANK, events);
    HeldReadsItems(i, BLANK, Shows(Feed(false, us).sent, st, sent));
  }

  /** What an accepted finish leaves behind are, as far as output items go, the live frames and the replay. */
  lemma FinishedView(v: View, live: seq<Event>, sent: Response, st: State, late: bool)
    requires !Silent(v) && v.started && Items(Bare(v.accepted)) == live && AboutItems(live)
    ensures var w := Next(v, Finish(sent, Some(st), true, false, true, false, late));
            w.ended && Items(Bare(w.accepted)) == Items(Shows(live, st, sent))
  {
    hide Items, FinishEvents, Stamped, Bare, Kept, Synthetic, OutputEvents, AboutItems;
    var w := Next(v, Finish(sent, Some(st), true, false, true, false, late));
    var events := FinishEvents(v, sent, Some(st), true);
    BareAppend(v.accepted, events, v.sequence);
    ItemsAppend(Bare(v.accepted), events);
    FinishAdds(v, sent, st);
    AllItems(live);
    ItemsAppend(live, Kept(st, Synthetic(sent, false, true)));
  }

  /** The same for a whole request, on a source of tools and its terms: whatever its round trips answer, one
      or two of them, all on the same session, an answer that is delivered after frames have been shown
      reaches the client as one delivery of every item. */
  lemma RequestDelivered(codec: Codec, source: Catalog.Source, choice: Catalog.Choice, parallel: Option<bool>,
      trips: nat -> Trip, timeLeft: bool, id: string, heartbeat: bool, ops: seq<Op>, late: bool, i: int)
    requires var terms := TermsOf(source, choice, parallel);
             && StreamAnswer(codec, terms, false, trips, timeLeft).Answered?
             && StreamAnswer(codec, terms, false, trips, timeLeft).keep.Some?
             && Offered(ops) == StreamShown(codec, terms, false, trips, timeLeft)
    requires !Silent(RunOps(Initial(id, heartbeat), ops))
    ensures var terms := TermsOf(source, choice, parallel);
            var answer := StreamAnswer(codec, terms, false, trips, timeLeft);
            var v := Next(RunOps(Initial(id, heartbeat), ops), Finish(answer.response, answer.keep, true, false, true, false, late));
            && StreamOk(v) && v.ended
            && HeldRun(i, BLANK, Bare(v.accepted))
               == Some(FinalHeld(StreamShown(codec, terms, false, trips, timeLeft), answer.keep.value, answer.response, i))
  {
    hide Transform, Feed, RunOps, Offered, StreamOk, FinalHeld, FinalView, HeldRun, ClientRun, FinishEvents, Stamped, Bare, FinalAccepted,
      KeepsStreamedItems, Next, Delivery.Run, TermsOf, Try, AnswerOf, StreamAnswer, StreamShown, Catalog.WellFormed, Silent;
    var terms := TermsOf(source, choice, parallel);
    TermsAreFormed(source, choice, parallel);
    ShownByLastTrip(codec, terms, false, trips, timeLeft);
    var trip := LastTrip(codec, terms, false, trips);
    DeliveredAgrees(codec, terms, false, trip);
    ConnectedWhenAnswered(codec, terms, false, trip);
    OneDelivery(trip.upstream, trip.parsed.value, AnswerOf(false, trip, Try(codec, terms, false, trip)).response,
                id, heartbeat, ops, late, i);
  }

  lemma ConnectedWhenAnswered(codec: Codec, terms: Terms, buffered: bool, trip: Trip)
    requires AnswerOf(buffered, trip, Try(codec, terms, buffered, trip)).Answered?
    ensures trip.connect.None? && FedBy(buffered, trip) == Feed(buffered, trip.upstream)
  {
    hide Feed, Transform, FinalAccepted;
  }

  /** When nothing was shown, the client gets the events of the whole response and no others about items. */
  lemma WholeReplay(id: string, heartbeat: bool, ops: seq<Op>, response: Response, late: bool)
    requires (forall op | op in ops :: Proper(op)) && Offered(ops) == [] && !Silent(RunOps(Initial(id, heartbeat), ops))
    ensures var v := Next(RunOps(Initial(id, heartbeat), ops), Finish(response, None, false, false, true, false, late));
            && StreamOk(v) && v.ended
            && Items(Bare(v.accepted)) == OutputEvents(response.output, |response.output|, false)
  {
    hide RunOps, Offered, StreamOk, Items, FinishEvents, Stamped, Bare, Synthetic, OutputEvents;
    var v := RunOps(Initial(id, heartbeat), ops);
    NothingIsLost(id, heartbeat, ops);
    EveryInterleavingIsOrdered(id, heartbeat, ops);
    StepKeepsOrder(v, Finish(response, None, false, false, true, false, late));
    var events := FinishEvents(v, response, None, false);
    BareAppend(v.accepted, events, v.sequence);
    ItemsAppend(Bare(v.accepted), events);
    WholeItems(v, response);
  }

  lemma WholeItems(v: View, response: Response)
    ensures Items(FinishEvents(v, response, None, false)) == OutputEvents(response.output, |response.output|, false)
  {
    hide OutputEvents, Items;
    var r := if v.started then response.(id := v.responseId) else response;
    var items := OutputEvents(r.output, |r.output|, false);
    OutputAboutItems(r.output, |r.output|, false);
    AllItems(items);
    ItemsAppend(items, [TerminalEvent(r)]);
    NoItem(TerminalEvent(r));
    var prologue := PrologueEvents(r);
    NoItems(prologue);
    ItemsAppend(prologue, items + [TerminalEvent(r)]);
    assert Synthetic(r, true, false) == prologue + (items + [TerminalEvent(r)]);
    assert Synthetic(r, false, false) == items + [TerminalEvent(r)];
  }

  // ---------- turns that showed nothing before their end ----------

  lemma {:induction false} PartsOwn(ch: Channel, i: int, id: string, parts: seq<Part>, n: nat)
    requires n <= |parts|
    ensures forall e | e in PartsEvents(ch, i, id, parts, n) :: e.OutputIndex() == Some(i)
  {
    hide TextPart, Shown;
    if n > 0 {
      PartsOwn(ch, i, id, parts, n - 1);
    }
  }

  lemma ItemOwn(i: int, item: Item, withSummary: bool)
    ensures forall e | e in ItemEvents(i, item, withSummary) :: e.OutputIndex() == Some(i)
  {
    hide PartsEvents, Announced;
    if Streams(item) {
      PartsOwn(ChannelOf(item), i, item.Id(), PartsOf(item), |PartsOf(item)|);
    }
  }

  /** Among the events of a whole response, those about one index are the events of its item. */
  lemma {:induction false} ProjectedOutput(output: seq<Item>, n: nat, withSummary: bool, i: int)
    requires n <= |output|
    ensures Projection(i, OutputEvents(output, n, withSummary)) == if 0 <= i < n then ItemEvents(i, output[i], withSummary) else []
  {
    hide ItemEvents, Projection;
    if n == 0 {
      ProjectionOf(i, [], true);
    } else {
      var before, last := OutputEvents(output, n - 1, withSummary), ItemEvents(n - 1, output[n - 1], withSummary);
      ProjectedOutput(output, n - 1, withSummary, i);
      ProjectionAppend(i, before, last);
      ItemOwn(n - 1, output[n - 1], withSummary);
      ProjectionOf(i, last, i == n - 1);
    }
  }

  lemma {:induction false} ClientReadsProjection(i: int, c: ClientItem, events: seq<Event>)
    ensures ClientRun(i, c, events) == ClientRun(i, c, Projection(i, events))
    decreases |events|
  {
    if events != [] {
      if events[0].OutputIndex() != Some(i) {
        ClientReadsProjection(i, c, events[1..]);
        assert Projection(i, events) == Projection(i, events[1..]);
      } else {
        assert Projection(i, events)[1..] == Projection(i, events[1..]);
        if ClientStep(c, events[0]).Some? {
          ClientReadsProjection(i, ClientStep(c, events[0]).value, events[1..]);
        }
      }
    }
  }

  lemma WholeItemSeen(i: int, item: Item)
    requires !item.ReasoningItem?
    ensures ClientRun(i, Absent, ItemEvents(i, item, false)) == Some(Delivered(START, i, item))
  {
    hide ClientRun, PartsEvents, Delivered;
    var events := ItemEvents(i, item, true);
    assert ItemEvents(i, item, false) == events;
    ItemAboutItems(i, item, true);
    hide ItemEvents;
    forall e | e in events ensures Keep(START, e) == Some(e) {
    }
    KeptAll(START, events);
    ItemReplayed(START, Absent, i, item);
  }

  /** A turn that is finished without anything shown before, in buffered mode or because it never
      committed: every item except reasoning is delivered once and completely to the strict client; a
      reasoning item is announced and closed as a whole. */
  lemma WholeDelivery(id: string, heartbeat: bool, ops: seq<Op>, response: Response, late: bool, i: nat)
    requires (forall op | op in ops :: Proper(op)) && Offered(ops) == [] && !Silent(RunOps(Initial(id, heartbeat), ops))
    requires i < |response.output|
    ensures var v := Next(RunOps(Initial(id, heartbeat), ops), Finish(response, None, false, false, true, false, late));
            var item := response.output[i];
            if item.ReasoningItem? then Projection(i, Bare(v.accepted)) == [ItemAdded(i, item), ItemDone(i, item)]
            else ClientRun(i, Absent, Bare(v.accepted)) == Some(Delivered(START, i, item))
  {
    hide RunOps, Offered, StreamOk, Items, Stamped, Bare, OutputEvents, ClientRun, Delivered, Next, Silent, Projection;
    var v := Next(RunOps(Initial(id, heartbeat), ops), Finish(response, None, false, false, true, false, late));
    WholeReplay(id, heartbeat, ops, response, late);
    var item, events := response.output[i], Bare(v.accepted);
    ProjectionReadsItems(i, events);
    ProjectedOutput(response.output, |response.output|, false, i);
    ClientReadsProjection(i, Absent, events);
    if item.ReasoningItem? {
      assert [ItemAdded(i, item)] + [] + [ItemDone(i, item)] == [ItemAdded(i, item), ItemDone(i, item)];
    } else {
      WholeItemSeen(i, item);
    }
  }

  lemma {:induction false} ProjectionReadsItems(i: int, events: seq<Event>)
    ensures Projection(i, Items(events)) == Projection(i, events)
  {
    if events != [] {
      ProjectionReadsItems(i, events[1..]);
      if CarriesResponse(events[0]) {
        assert Items(events) == Items(events[1..]);
      } else {
        assert Items(events)[1..] == Items(events[1..]);
      }
    }
  }

  /** And when an answer is delivered before any frame has been shown, in either mode: every item of it but
      reasoning is delivered whole at the end. */
  lemma RequestReplayed(codec: Codec, source: Catalog.Source, choice: Catalog.Choice, parallel: Option<bool>, buffered: bool,
      trips: nat -> Trip, timeLeft: bool, id: string, heartbeat: bool, ops: seq<Op>, late: bool, i: nat)
    requires var terms := TermsOf(source, choice, parallel);
             var answer := StreamAnswer(codec, terms, buffered, trips, timeLeft);
             && answer.Answered? && answer.keep.None? && i < |answer.response.output|
             && Offered(ops) == StreamShown(codec, terms, buffered, trips, timeLeft)
    requires !Silent(RunOps(Initial(id, heartbeat), ops)) && forall op | op in ops :: Proper(op)
    ensures var answer := StreamAnswer(codec, TermsOf(source, choice, parallel), buffered, trips, timeLeft);
            var item := answer.response.output[i];
            var v := Next(RunOps(Initial(id, heartbeat), ops), Finish(answer.response, None, false, false, true, false, late));
            if item.ReasoningItem? then Projection(i, Bare(v.accepted)) == [ItemAdded(i, item), ItemDone(i, item)]
            else ClientRun(i, Absent, Bare(v.accepted)) == Some(Delivered(START, i, item))
  {
    hide Transform, Feed, FedBy, RunOps, Offered, ClientRun, Delivered, Bare, KeepsStreamedItems, Next, Delivery.Run, TermsOf, Try,
      AnswerOf, StreamAnswer, StreamShown, Catalog.WellFormed, Silent, Projection;
    var terms := TermsOf(source, choice, parallel);
    TermsAreFormed(source, choice, parallel);
    ShownByLastTrip(codec, terms, buffered, trips, timeLeft);
    DeliveredAgrees(codec, terms, buffered, LastTrip(codec, terms, buffered, trips));
    WholeDelivery(id, heartbeat, ops, StreamAnswer(codec, terms, buffered, trips, timeLeft).response, late, i);
  }

  // ---------- sessions that end early ----------

  /** What an operation that silences an open session lets through: at most the replay of a finish. */
  function LastItems(v: View, op: Op): seq<Event> {
    if !Silent(v) && op.Finish? && !op.stopped && op.accepts && !op.forcedMid then
      Items(FinishEvents(v, op.response, op.keep, op.withSummary))
    else []
  }

  lemma EmitOrNot(v: View, events: seq<Event>, done: bool, accepts: bool)
    ensures Items(Bare(Emit(v, events, done, accepts).accepted))
            == Items(Bare(v.accepted)) + (if Emitted(v, accepts) then Items(events) else [])
  {
    hide Items, Bare, Stamped;
    if Emitted(v, accepts) {
      BareAppend(v.accepted, events, v.sequence);
      ItemsAppend(Bare(v.accepted), events);
    } else {
      assert Items(Bare(v.accepted)) + [] == Items(Bare(v.accepted));
    }
  }

  lemma OpeningHasNoItems(v: View, meta: Option<Response>, accepts: bool)
    ensures Items(Bare(OpenLocked(v, meta, accepts).accepted)) == Items(Bare(v.accepted))
  {
    hide Items, Bare, Stamped, Emit;
    if !v.started {
      var opening := OpeningOf(v, meta);
      var prologue := [Created(opening), InProgress(opening)];
      EmitOrNot(v.(responseId := opening.id, started := true), prologue, false, accepts);
      NoItems(prologue);
      assert Items(Bare(v.accepted)) + [] == Items(Bare(v.accepted));
    }
  }

  lemma FailureHasNoItems(v: View, err: Failure, accepts: bool, forcedMid: bool)
    ensures Items(Bare(FailLocked(v, err, accepts, forcedMid).accepted)) == Items(Bare(v.accepted))
  {
    hide Items, Bare, Stamped, SaysClientGone, IsRequestScoped, Emit;
    EmitOrNot(Meanwhile(v, forcedMid), FailEvents(v, err), true, accepts);
    NoItems(FailEvents(v, err));
    assert Items(Bare(v.accepted)) + [] == Items(Bare(v.accepted));
  }

  lemma DeliverySilenced(v: View, op: Op)
    requires op.Deliver? && !Silent(v) && Silent(Next(v, op))
    ensures Items(Bare(Next(v, op).accepted)) == Items(Bare(v.accepted))
  {
    hide Items, Bare, Stamped, OpeningOf;
    var o := OpenLocked(Meanwhile(v, op.forcedFirst), op.meta, op.acceptsOpening);
    OpeningHasNoItems(Meanwhile(v, op.forcedFirst), op.meta, op.acceptsOpening);
    EmitOrNot(Meanwhile(o, op.forcedNext), op.frames, false, op.accepts);
    assert Items(Bare(v.accepted)) + [] == Items(Bare(v.accepted));
  }

  lemma FinishSilenced(v: View, op: Op)
    requires op.Finish? && !Silent(v)
    ensures Items(Bare(Next(v, op).accepted)) == Items(Bare(v.accepted)) + LastItems(v, op)
  {
    hide Items, Bare, Stamped, FinishEvents, FailLocked, Emit;
    assert Items(Bare(v.accepted)) + [] == Items(Bare(v.accepted));
    if op.stopped {
      FailureHasNoItems(v, STOPPED, op.accepts, op.forcedMid);
    } else {
      EmitOrNot(Meanwhile(v, op.forcedMid), FinishEvents(v, op.response, op.keep, op.withSummary), true, op.accepts);
    }
  }

  lemma StepSilenced(v: View, op: Op)
    requires !Silent(v) && Silent(Next(v, op))
    ensures Items(Bare(Next(v, op).accepted)) == Items(Bare(v.accepted)) + LastItems(v, op)
  {
    hide Items, Bare, Stamped, FinishEvents, FailLocked, OpenLocked;
    assert Items(Bare(v.accepted)) + [] == Items(Bare(v.accepted));
    match op {
      case Start(accepts) => OpeningHasNoItems(v, None, accepts);
      case Open(meta, accepts, forcedMid) => OpeningHasNoItems(Meanwhile(v, forcedMid), meta, accepts);
      case Deliver(_, _, _, _, _, _) => DeliverySilenced(v, op);
      case Tick(idle, accepts) =>
        OpeningHasNoItems(v, None, accepts);
        var beat := [InProgress(Placeholder(v, "in_progress"))];
        EmitOrNot(v, beat, false, accepts);
        NoItems(beat);
      case Finish(_, _, _, _, _, _, _) => FinishSilenced(v, op);
      case Fail(err, accepts, forcedMid) => FailureHasNoItems(v, err, accepts, forcedMid);
      case Force =>
    }
  }

  /** The accepted item events are the batches of the first `n` operations, whole and in order, and, if the
      next one is a finish that was written, its replay. */
  ghost predicate CutAfter(id: string, heartbeat: bool, ops: seq<Op>, n: nat)
    requires n <= |ops|
  {
    Items(Bare(RunOps(Initial(id, heartbeat), ops).accepted))
    == Offered(ops[..n]) + (if n < |ops| then LastItems(RunOps(Initial(id, heartbeat), ops[..n]), ops[n]) else [])
  }

  /** However a session ends, by a client that goes, a forced close, a failure or a finish: the client has
      received a beginning of what was handed over, cut between two batches, and after it at most the one
      replay of a finish. */
  lemma {:induction false} WholeBatches(id: string, heartbeat: bool, ops: seq<Op>)
    requires forall op | op in ops :: Proper(op)
    ensures exists n: nat :: n <= |ops| && CutAfter(id, heartbeat, ops, n)
    ensures !Silent(RunOps(Initial(id, heartbeat), ops)) ==> CutAfter(id, heartbeat, ops, |ops|)
  {
    hide Next, Silent, LastItems, Items, Bare;
    assert ops[..|ops|] == ops && Offered(ops) + [] == Offered(ops);
    var v := RunOps(Initial(id, heartbeat), ops);
    if !Silent(v) {
      NothingIsLost(id, heartbeat, ops);
      assert CutAfter(id, heartbeat, ops, |ops|);
    } else if ops == [] {
      NotSilentAtFirst(id, heartbeat);
    } else {
      var shorter, op := ops[..|ops| - 1], ops[|ops| - 1];
      assert forall x | x in shorter :: x in ops;
      var before := RunOps(Initial(id, heartbeat), shorter);
      WholeBatches(id, heartbeat, shorter);
      if Silent(before) {
        SilentStep(before, op);
        var n: nat :| n <= |shorter| && CutAfter(id, heartbeat, shorter, n);
        CutStays(id, heartbeat, ops, n);
      } else {
        NothingIsLost(id, heartbeat, shorter);
        StepSilenced(before, op);
        assert CutAfter(id, heartbeat, ops, |ops| - 1);
      }
    }
  }

  lemma SilentHasNone(v: View, op: Op)
    requires Silent(v)
    ensures LastItems(v, op) == []
  {
  }

  lemma NotSilentAtFirst(id: string, heartbeat: bool)
    ensures !Silent(RunOps(Initial(id, heartbeat), []))
  {
  }

  /** A silent session stays cut where it was. */
  lemma CutStays(id: string, heartbeat: bool, ops: seq<Op>, n: nat)
    requires ops != [] && n < |ops| && CutAfter(id, heartbeat, ops[..|ops| - 1], n)
    requires Silent(RunOps(Initial(id, heartbeat), ops[..|ops| - 1]))
    requires forall op | op in ops :: Proper(op)
    ensures exists m: nat :: m <= |ops| && CutAfter(id, heartbeat, ops, m)
  {
    hide Next, Silent, LastItems, Items, Bare;
    var shorter := ops[..|ops| - 1];
    SilentStep(RunOps(Initial(id, heartbeat), shorter), ops[|ops| - 1]);
    assert shorter[..n] == ops[..n];
    if n < |shorter| {
      assert CutAfter(id, heartbeat, ops, n);
    } else {
      assert shorter[..n] == shorter;
      SilentHasNone(RunOps(Initial(id, heartbeat), shorter), ops[n]);
      assert CutAfter(id, heartbeat, ops, n);
    }
  }
}
