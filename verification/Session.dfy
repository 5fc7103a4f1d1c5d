/** The downstream side of one streaming request: `streamSession` of internal/basispoints/stream_session.go.
    Every operation below runs under the session's mutex. Only a watchdog's forced close does not take that
    mutex, so it may also fall inside an operation, between a check of the flag and the write that follows;
    the operations carry these moments as parameters. The host may reject any emit. */
module Session {
  import opened Responses
  import opened Delivery
  import opened Replay

  // ---------- errors ----------

  datatype Failure = ClientGone | Api(kind: string, status: int) | Plain

  const STOPPED := Api("plugin_stopped", 503)

  predicate SaysClientGone(err: Failure) {
    err.ClientGone? || (err.Api? && err.kind == "client_disconnected")
  }

  /** Errors of this request only; the others concern the credential or the connection. */
  predicate IsRequestScoped(err: Failure) {
    && err.Api?
    && err.kind !in {"upstream_transport", "upstream_timeout", "upstream_response_too_large"}
    && err.status !in {401, 402, 403, 404, 429}
  }

  function ErrorKind(err: Failure): string {
    if err.Api? && err.kind != "" then err.kind else "plugin_error"
  }

  // ---------- the specification ----------

  /** An event the host has accepted, with its `sequence_number`. */
  datatype Sent = Sent(number: nat, event: Event)

  datatype View = View(
    heartbeat: bool, responseId: string, sequence: nat, started: bool, closed: bool, disconnected: bool,
    forced: bool, accepted: seq<Sent>, ended: bool)

  predicate Silent(v: View) {
    v.closed || v.disconnected || v.forced
  }

  function Stamped(events: seq<Event>, start: nat): seq<Sent> {
    seq(|events|, k requires 0 <= k < |events| => Sent(start + k, events[k]))
  }

  /** Writes events out, and the end marker when `done`. */
  function Emit(v: View, events: seq<Event>, done: bool, accepts: bool): View {
    if Silent(v) then v
    else if !accepts then v.(disconnected := true)
    else v.(sequence := v.sequence + |events|, accepted := v.accepted + Stamped(events, v.sequence), ended := done)
  }

  predicate Emitted(v: View, accepts: bool) {
    !Silent(v) && accepts
  }

  function Placeholder(v: View, status: string): Response {
    Response(v.responseId, status, [], "")
  }

  /** The response object the stream is opened with: the upstream one when it has an id. */
  function OpeningOf(v: View, meta: Option<Response>): Response {
    if meta.Some? && meta.value.id != "" then meta.value.(status := "in_progress", output := [])
    else Placeholder(v, "in_progress")
  }

  function OpenLocked(v: View, meta: Option<Response>, accepts: bool): View {
    if v.started then v
    else
      var opening := OpeningOf(v, meta);
      Emit(v.(responseId := opening.id, started := true), [Created(opening), InProgress(opening)], false, accepts)
  }

  datatype Op =
    | Start(accepts: bool)
    | Open(meta: Option<Response>, accepts: bool, forcedMid: bool)
    | Deliver(meta: Option<Response>, frames: seq<Event>, acceptsOpening: bool, accepts: bool,
              forcedFirst: bool, forcedNext: bool)
    | Tick(idle: bool, accepts: bool)
    | Finish(response: Response, keep: Option<State>, withSummary: bool, stopped: bool, accepts: bool,
             forcedMid: bool, forcedLate: bool)
    | Fail(err: Failure, accepts: bool, forcedMid: bool)
    | Force

  /** A watchdog may have forced the close meanwhile. */
  function Meanwhile(v: View, happened: bool): View {
    v.(forced := v.forced || happened)
  }

  function FinishEvents(v: View, response: Response, keep: Option<State>, withSummary: bool): seq<Event> {
    if !v.started then Synthetic(response, true, withSummary)
    else
      var events := Synthetic(response.(id := v.responseId), false, withSummary);
      if keep.Some? then Kept(keep.value, events) else events
  }

  function FailEvents(v: View, err: Failure): seq<Event> {
    (if v.started then [] else [Created(Placeholder(v, "in_progress"))])
    + [Failed(Placeholder(v, "failed"), ErrorKind(err))]
  }

  function FailLocked(v: View, err: Failure, accepts: bool, forcedMid: bool): View {
    if v.disconnected || v.forced || SaysClientGone(err) || !IsRequestScoped(err) then v.(closed := true)
    else Emit(Meanwhile(v, forcedMid), FailEvents(v, err), true, accepts).(closed := true)
  }

  function Next(v: View, op: Op): View {
    match op
    case Start(accepts) => if v.heartbeat then OpenLocked(v, None, accepts) else v
    case Open(meta, accepts, forcedMid) =>
      if !v.heartbeat || Silent(v) then v else OpenLocked(Meanwhile(v, forcedMid), meta, accepts)
    case Deliver(meta, frames, acceptsOpening, accepts, forcedFirst, forcedNext) =>
      if Silent(v) then v
      else Emit(Meanwhile(OpenLocked(Meanwhile(v, forcedFirst), meta, acceptsOpening), forcedNext), frames, false, accepts)
    case Tick(idle, accepts) =>
      if !v.started then OpenLocked(v, None, accepts)
      else if idle then Emit(v, [InProgress(Placeholder(v, "in_progress"))], false, accepts)
      else v
    case Finish(response, keep, withSummary, stopped, accepts, forcedMid, forcedLate) =>
      if stopped then FailLocked(v, STOPPED, accepts, forcedMid)
      else if v.disconnected || v.forced then v.(closed := true)
      else
        var w := Emit(Meanwhile(v, forcedMid), FinishEvents(v, response, keep, withSummary), true, accepts);
        Meanwhile(w.(closed := true), forcedLate)
    case Fail(err, accepts, forcedMid) => FailLocked(v, err, accepts, forcedMid)
    case Force => v.(forced := true)
  }

  // ---------- the session object ----------

  class StreamSession {
    const heartbeat: bool
    var responseId: string
    var sequence: nat
    var started: bool
    var closed: bool
    var disconnected: bool
    var forced: bool
    /** What the host has accepted, and whether the end marker has followed. */
    ghost var accepted: seq<Sent>
    ghost var ended: bool

    constructor (id: string, heartbeat: bool)
      ensures Abs() == Initial(id, heartbeat)
    {
      this.heartbeat := heartbeat;
      responseId, sequence := id, 0;
      started, closed, disconnected, forced := false, false, false, false;
      accepted, ended := [], false;
    }

    ghost function Abs(): View
      reads this
    {
      View(heartbeat, responseId, sequence, started, closed, disconnected, forced, accepted, ended)
    }

    /** `emitLocked`; `accepts` is the host's answer. */
    method EmitLocked(events: seq<Event>, done: bool, accepts: bool) returns (ok: bool)
      modifies this`sequence, this`disconnected, this`accepted, this`ended
      ensures Abs() == Emit(old(Abs()), events, done, accepts)
      ensures ok == Emitted(old(Abs()), accepts)
    {
      if closed || disconnected || forced {
        return false;
      }
      var payload: seq<Sent> := [];
      var next := sequence;
      for k := 0 to |events|
        invariant next == sequence + k
        invariant payload == Stamped(events[..k], sequence)
      {
        payload := payload + [Sent(next, events[k])];
        next := next + 1;
      }
      if !accepts {
        disconnected := true;
        return false;
      }
      assert events[..|events|] == events;
      accepted, ended := accepted + payload, done;
      sequence := next;
      ok := true;
    }

    method OpenStream(meta: Option<Response>, accepts: bool) returns (ok: bool)
      modifies this`responseId, this`started, this`sequence, this`disconnected, this`accepted, this`ended
      ensures Abs() == OpenLocked(old(Abs()), meta, accepts)
      ensures ok == (old(started) || Emitted(old(Abs()), accepts))
    {
      if started {
        return true;
      }
      var prologue := Response(responseId, "in_progress", [], "");
      if meta.Some? && meta.value.id != "" {
        responseId := meta.value.id;
        prologue := meta.value.(status := "in_progress", output := []);
      }
      started := true;
      ok := EmitLocked([Created(prologue), InProgress(prologue)], false, accepts);
    }

    method DoOpen(meta: Option<Response>, accepts: bool, forcedMid: bool)
      modifies this
      ensures Abs() == Next(old(Abs()), Open(meta, accepts, forcedMid))
    {
      if !heartbeat || closed || disconnected || forced {
        return;
      }
      forced := forcedMid;
      var _ := OpenStream(meta, accepts);
    }

    method DoStart(accepts: bool)
      modifies this
      ensures Abs() == Next(old(Abs()), Start(accepts))
    {
      if heartbeat {
        var _ := OpenStream(None, accepts);
      }
    }

    method DoDeliver(meta: Option<Response>, frames: seq<Event>, acceptsOpening: bool, accepts: bool,
        forcedFirst: bool, forcedNext: bool) returns (ok: bool)
      modifies this
      ensures Abs() == Next(old(Abs()), Deliver(meta, frames, acceptsOpening, accepts, forcedFirst, forcedNext))
      ensures ok == (old(!Silent(Abs())) && !forcedFirst && !forcedNext && (old(started) || acceptsOpening) && accepts)
    {
      hide Stamped, OpeningOf, OpenLocked, Emit;
      if closed || disconnected || forced {
        return false;
      }
      DeliverySteps(Abs(), meta, acceptsOpening, accepts, forcedFirst, forcedNext);
      forced := forcedFirst;
      ok := OpenStream(meta, acceptsOpening);
      forced := forced || forcedNext;
      SilentEmit(Abs(), frames, accepts);
      if ok {
        ok := EmitLocked(frames, false, accepts);
      }
    }

    /** One turn of the heartbeat; `idle` says whether nothing has been written for half an interval. */
    method DoTick(idle: bool, accepts: bool) returns (goOn: bool)
      modifies this
      ensures Abs() == Next(old(Abs()), Tick(idle, accepts))
    {
      goOn := true;
      if !started {
        goOn := OpenStream(None, accepts);
      } else if idle {
        goOn := EmitLocked([InProgress(Response(responseId, "in_progress", [], ""))], false, accepts);
      }
    }

    /** What a finish writes: the whole response, or what `keep` lets through of it on an open stream. */
    method EventsToFinish(response: Response, keep: Option<State>, withSummary: bool) returns (events: seq<Event>)
      ensures events == FinishEvents(Abs(), response, keep, withSummary)
    {
      hide Synthetic, Kept;
      if started {
        events := SyntheticEventsFor(response.(id := responseId), false, withSummary);
        if keep.Some? {
          events := FilterReplay(keep.value, events);
        }
      } else {
        events := SyntheticEventsFor(response, true, withSummary);
      }
    }

    /** The last write of a stream, and whether it reached a client that is still there. */
    method WriteLast(events: seq<Event>, accepts: bool, forcedMid: bool, forcedLate: bool) returns (outcome: Outcome)
      requires !forced && !disconnected
      modifies this
      ensures Abs() ==
        Meanwhile(Emit(Meanwhile(old(Abs()), forcedMid), events, true, accepts).(closed := true), forcedLate)
      ensures outcome ==
        if Emitted(old(Abs()), accepts) && !forcedMid && !forcedLate then Finished else Cancelled
    {
      hide Stamped;
      forced := forcedMid;
      var ok := EmitLocked(events, true, accepts);
      closed := true;
      forced := forced || forcedLate;
      outcome := if ok && !disconnected && !forced then Finished else Cancelled;
    }

    /** `finishGenerated` up to the close: the filtered or full replay, unless the plugin was stopped. */
    method DoFinish(response: Response, keep: Option<State>, withSummary: bool, stopped: bool, accepts: bool,
        forcedMid: bool, forcedLate: bool) returns (outcome: Outcome)
      modifies this
      ensures Abs() == Next(old(Abs()), Finish(response, keep, withSummary, stopped, accepts, forcedMid, forcedLate))
      ensures outcome ==
        if stopped then Stopped
        else if Emitted(old(Abs()), accepts) && !forcedMid && !forcedLate then Finished
        else Cancelled
    {
      hide FinishEvents, FailEvents, Stamped, SaysClientGone, IsRequestScoped;
      if stopped {
        DoFail(STOPPED, accepts, forcedMid);
        return Stopped;
      }
      if disconnected || forced {
        closed := true;
        return Cancelled;
      }
      var events := EventsToFinish(response, keep, withSummary);
      outcome := WriteLast(events, accepts, forcedMid, forcedLate);
    }

    method DoFail(err: Failure, accepts: bool, forcedMid: bool)
      modifies this
      ensures Abs() == Next(old(Abs()), Fail(err, accepts, forcedMid))
    {
      hide Emit, SaysClientGone, IsRequestScoped, ErrorKind;
      if disconnected || forced || SaysClientGone(err) {
        closed := true;
        return;
      }
      if !IsRequestScoped(err) {
        closed := true;
        return;
      }
      var events := [Failed(Response(responseId, "failed", [], ""), ErrorKind(err))];
      if !started {
        events := [Created(Response(responseId, "in_progress", [], ""))] + events;
      }
      assert events == FailEvents(Abs(), err);
      var _ := WriteLast(events, accepts, forcedMid, false);
    }
  }

  datatype Outcome = Finished | Stopped | Cancelled

  /** When the frames of a delivery are written: the opening has not failed and no close was forced. */
  lemma DeliverySteps(v: View, meta: Option<Response>, acceptsOpening: bool, accepts: bool, forcedFirst: bool, forcedNext: bool)
    requires !Silent(v)
    ensures var o := Meanwhile(OpenLocked(Meanwhile(v, forcedFirst), meta, acceptsOpening), forcedNext);
            var open := v.started || Emitted(Meanwhile(v, forcedFirst), acceptsOpening);
            && (!open ==> Silent(o))
            && (open && Emitted(o, accepts) <==> !forcedFirst && !forcedNext && (v.started || acceptsOpening) && accepts)
  {
    hide Stamped, OpeningOf;
  }

  lemma SilentEmit(v: View, events: seq<Event>, accepts: bool)
    ensures Silent(v) ==> Emit(v, events, false, accepts) == v
  {
  }

  function Initial(id: string, heartbeat: bool): View {
    View(heartbeat, id, 0, false, false, false, false, [], false)
  }

  // ---------- every interleaving ----------

  function RunOps(v: View, ops: seq<Op>): View {
    if ops == [] then v else Next(RunOps(v, ops[..|ops| - 1]), ops[|ops| - 1])
  }

  predicate CarriesResponse(e: Event) {
    e.Created? || e.InProgress? || e.Completed? || e.Incomplete? || e.Failed?
  }

  predicate IsTerminal(e: Event) {
    e.Completed? || e.Incomplete? || e.Failed?
  }

  /** Callers hand over the frames of the delivery machine, which are about output items only. */
  predicate Proper(op: Op) {
    op.Deliver? ==> forall f | f in op.frames :: !CarriesResponse(f)
  }

  function Bare(accepted: seq<Sent>): seq<Event> {
    seq(|accepted|, k requires 0 <= k < |accepted| => accepted[k].event)
  }

  /** `response.created` comes first and only there, one response id is used throughout, and only the last
      event may be terminal: it is when the stream has ended. */
  ghost predicate Ordered(events: seq<Event>, id: string, ended: bool) {
    && (events != [] ==> events[0].Created?)
    && (forall k | 1 <= k < |events| :: !events[k].Created?)
    && (forall k | 0 <= k < |events| && CarriesResponse(events[k]) :: events[k].response.id == id)
    && (forall k | 0 <= k < |events| && IsTerminal(events[k]) :: ended && k == |events| - 1)
    && (ended ==> events != [] && IsTerminal(events[|events| - 1]))
  }

  /** A batch continues an open stream. */
  ghost predicate Continues(events: seq<Event>, id: string, last: bool) {
    && (forall e | e in events :: !e.Created?)
    && (forall e | e in events && CarriesResponse(e) :: e.response.id == id)
    && (if last then
          && events != [] && IsTerminal(events[|events| - 1])
          && forall k | 0 <= k < |events| - 1 :: !IsTerminal(events[k])
        else forall e | e in events :: !IsTerminal(e))
  }

  lemma OrderedExtends(before: seq<Event>, events: seq<Event>, id: string, last: bool)
    requires before != [] && Ordered(before, id, false) && Continues(events, id, last)
    ensures Ordered(before + events, id, last)
  {
    var all := before + events;
    forall k | |before| <= k < |all|
      ensures !all[k].Created? && (CarriesResponse(all[k]) ==> all[k].response.id == id)
      ensures IsTerminal(all[k]) ==> last && k == |all| - 1
    {
      assert all[k] == events[k - |before|] && all[k] in events;
    }
  }

  /** The id of an opened stream. */
  ghost function StreamId(v: View): string {
    if v.accepted != [] && v.accepted[0].event.Created? then v.accepted[0].event.response.id else v.responseId
  }

  /** What holds of the session between any two operations: the accepted events are numbered from 0
      without gaps and form an ordered stream, and the flags tell how far it has got. */
  ghost predicate StreamOk(v: View) {
    StreamCore(v) && (v.started && v.accepted == [] ==> Silent(v))
  }

  ghost predicate StreamCore(v: View) {
    && v.accepted == Stamped(Bare(v.accepted), 0)
    && v.sequence == |v.accepted|
    && Ordered(Bare(v.accepted), StreamId(v), v.ended)
    && (v.ended ==> v.closed)
    && (!v.closed && v.started ==> StreamId(v) == v.responseId)
    && (!v.closed && !v.started ==> v.accepted == [])
  }

  lemma StampedAppend(a: seq<Event>, b: seq<Event>)
    ensures Stamped(a, 0) + Stamped(b, |a|) == Stamped(a + b, 0)
    ensures Bare(Stamped(a, 0)) == a
  {
  }

  lemma BareAppend(a: seq<Sent>, b: seq<Event>, start: nat)
    ensures Bare(a + Stamped(b, start)) == Bare(a) + b
  {
  }

  /** An accepted batch keeps the stream in order; a last one ends it. */
  lemma BatchKeepsOrder(v: View, events: seq<Event>, last: bool, accepts: bool)
    requires StreamCore(v) && !Silent(v)
    requires if v.accepted == [] then events != [] && Ordered(events, v.responseId, last) else Continues(events, v.responseId, last)
    requires v.started || last
    ensures var v' := Emit(v, events, last, accepts); StreamOk(if last then v'.(closed := true) else v')
  {
    var before := Bare(v.accepted);
    BareAppend(v.accepted, events, v.sequence);
    StampedAppend(before, events);
    if v.accepted == [] {
      assert before + events == events;
    } else {
      OrderedExtends(before, events, v.responseId, last);
    }
    hide Ordered, Continues, Bare, Stamped;
  }

  lemma OpeningKeepsOrder(v: View, meta: Option<Response>, accepts: bool)
    requires StreamOk(v)
    ensures StreamOk(OpenLocked(v, meta, accepts))
  {
    if !v.started {
      var opening := OpeningOf(v, meta);
      var v1 := v.(responseId := opening.id, started := true);
      assert StreamCore(v1);
      if !Silent(v1) {
        BatchKeepsOrder(v1, [Created(opening), InProgress(opening)], false, accepts);
      }
    }
  }

  predicate AboutItems(events: seq<Event>) {
    forall e | e in events :: !CarriesResponse(e)
  }

  lemma ItemsContinue(events: seq<Event>, terminal: Event, id: string)
    requires AboutItems(events) && IsTerminal(terminal) && terminal.response.id == id
    ensures Continues(events + [terminal], id, true)
    ensures forall prologue: Response | prologue.id == id ::
              Ordered([Created(prologue), InProgress(prologue)] + events + [terminal], id, true)
  {
    var all := events + [terminal];
    assert forall k | 0 <= k < |events| :: all[k] == events[k] && events[k] in events;
    forall prologue: Response | prologue.id == id
      ensures Ordered([Created(prologue), InProgress(prologue)] + events + [terminal], id, true)
    {
      assert [Created(prologue), InProgress(prologue)] + all == [Created(prologue), InProgress(prologue)] + events + [terminal];
      OrderedExtends([Created(prologue), InProgress(prologue)], all, id, true);
    }
  }

  lemma {:induction false} OutputAboutItems(output: seq<Item>, n: nat, withSummary: bool)
    requires n <= |output|
    ensures AboutItems(OutputEvents(output, n, withSummary))
  {
    hide ItemEvents;
    if n > 0 {
      OutputAboutItems(output, n - 1, withSummary);
      ItemAboutItems(n - 1, output[n - 1], withSummary);
    }
  }

  lemma ItemAboutItems(i: int, item: Item, withSummary: bool)
    ensures AboutItems(ItemEvents(i, item, withSummary))
  {
    hide PartsEvents, Announced;
    if item.MessageItem? {
      PartsAboutItems(Content, i, item.id, item.content, |item.content|);
    } else if item.ReasoningItem? {
      PartsAboutItems(Summary, i, item.id, item.summary.GetOr([]), |item.summary.GetOr([])|);
    }
    assert AboutItems(BodyEvents(i, item, withSummary));
  }

  lemma PartAboutItems(ch: Channel, i: int, id: string, k: int, part: Part)
    ensures AboutItems(PartEvents(ch, i, id, k, part))
  {
    hide TextPart, Shown, TextOf, LogsOf;
  }

  lemma {:induction false} PartsAboutItems(ch: Channel, i: int, id: string, parts: seq<Part>, n: nat)
    requires n <= |parts|
    ensures AboutItems(PartsEvents(ch, i, id, parts, n))
  {
    hide PartEvents;
    if n > 0 {
      PartAboutItems(ch, i, id, n - 1, parts[n - 1]);
      PartsAboutItems(ch, i, id, parts, n - 1);
    }
  }

  lemma {:induction false} KeptAboutItems(st: State, events: seq<Event>)
    requires AboutItems(events)
    ensures AboutItems(Kept(st, events))
  {
    if events != [] {
      assert events[0] in events;
      assert forall e | e in events[1..] :: e in events;
      KeptAboutItems(st, events[1..]);
    }
  }

  lemma FinishContinues(v: View, response: Response, keep: Option<State>, withSummary: bool)
    ensures v.started ==> Continues(FinishEvents(v, response, keep, withSummary), v.responseId, true)
    ensures !v.started ==> Ordered(FinishEvents(v, response, keep, withSummary), response.id, true)
  {
    hide OutputEvents, Kept, AboutItems, Continues, Ordered;
    var r := if v.started then response.(id := v.responseId) else response;
    var items := OutputEvents(r.output, |r.output|, withSummary);
    OutputAboutItems(r.output, |r.output|, withSummary);
    ItemsContinue(items, TerminalEvent(r), r.id);
    if v.started {
      assert Synthetic(r, false, withSummary) == items + [TerminalEvent(r)];
      if keep.Some? {
        KeptAboutItems(keep.value, items);
        ItemsContinue(Kept(keep.value, items), TerminalEvent(r), r.id);
        KeptAppend(keep.value, items, [TerminalEvent(r)]);
        KeptTerminal(keep.value, TerminalEvent(r));
      }
    } else {
      var blank := r.(status := "in_progress", output := []);
      assert Synthetic(r, true, withSummary) == [Created(blank), InProgress(blank)] + items + [TerminalEvent(r)];
    }
  }

  lemma KeptTerminal(st: State, e: Event)
    requires IsTerminal(e)
    ensures Kept(st, [e]) == [e]
  {
    assert [e][1..] == [];
  }

  lemma FinishKeepsOrder(v: View, response: Response, keep: Option<State>, withSummary: bool, accepts: bool)
    requires StreamOk(v)
    ensures StreamOk(Emit(v, FinishEvents(v, response, keep, withSummary), true, accepts).(closed := true))
  {
    hide FinishEvents;
    FinishContinues(v, response, keep, withSummary);
    var events := FinishEvents(v, response, keep, withSummary);
    if !Silent(v) {
      if v.started {
        BatchKeepsOrder(v, events, true, accepts);
      } else {
        // Nothing has been sent yet: the whole stream, prologue included, has the response's own id.
        BatchKeepsOrder(v.(responseId := response.id), events, true, accepts);
      }
    }
  }

  lemma FailingKeepsOrder(v: View, err: Failure, accepts: bool)
    requires StreamOk(v)
    ensures StreamOk(FailLocked(v, err, accepts, false))
  {
    hide FailEvents, StreamCore, SaysClientGone, IsRequestScoped;
    ForcingKeepsOrder(v, false);
    if !Silent(v) && !SaysClientGone(err) && IsRequestScoped(err) {
      FailEventsContinue(v, err);
      BatchKeepsOrder(v, FailEvents(v, err), true, accepts);
    }
  }

  /** A failure event ends a stream, and is a stream of its own with the prologue it brings along. */
  lemma FailEventsContinue(v: View, err: Failure)
    requires StreamOk(v) && !Silent(v)
    ensures if v.accepted == [] then FailEvents(v, err) != [] && Ordered(FailEvents(v, err), v.responseId, true)
            else Continues(FailEvents(v, err), v.responseId, true)
  {
    hide Ordered, Continues;
    var failed := Failed(Placeholder(v, "failed"), ErrorKind(err));
    if v.started {
      assert FailEvents(v, err) == [failed];
      FailedContinues(failed, v.responseId);
    } else {
      var opening := Created(Placeholder(v, "in_progress"));
      assert FailEvents(v, err) == [opening] + [failed];
      FailedIsOrdered(opening, failed, v.responseId);
    }
  }

  lemma FailedContinues(failed: Event, id: string)
    requires failed.Failed? && failed.response.id == id
    ensures Continues([failed], id, true)
  {
  }

  lemma FailedIsOrdered(opening: Event, failed: Event, id: string)
    requires opening.Created? && opening.response.id == id && failed.Failed? && failed.response.id == id
    ensures Ordered([opening] + [failed], id, true)
  {
  }

  lemma DeliveryKeepsOrder(v: View, meta: Option<Response>, frames: seq<Event>, acceptsOpening: bool, accepts: bool,
      forcedNext: bool)
    requires StreamOk(v) && AboutItems(frames)
    ensures StreamOk(Emit(Meanwhile(OpenLocked(v, meta, acceptsOpening), forcedNext), frames, false, accepts))
  {
    OpeningKeepsOrder(v, meta, acceptsOpening);
    var o := OpenLocked(v, meta, acceptsOpening);
    ForcingKeepsOrder(o, forcedNext);
    if !Silent(Meanwhile(o, forcedNext)) {
      assert o.started;
      BatchKeepsOrder(o, frames, false, accepts);
    }
  }

  lemma ForcingKeepsOrder(v: View, happened: bool)
    requires StreamOk(v)
    ensures StreamOk(Meanwhile(v, happened)) && StreamOk(v.(closed := true))
  {
  }

  lemma BeatKeepsOrder(v: View, accepts: bool)
    requires StreamOk(v) && v.started
    ensures StreamOk(Emit(v, [InProgress(Placeholder(v, "in_progress"))], false, accepts))
  {
    if !Silent(v) {
      BatchKeepsOrder(v, [InProgress(Placeholder(v, "in_progress"))], false, accepts);
    }
  }

  /** A forced close inside an operation is the same as one before it, for what the host accepts. */
  lemma StepKeepsOrder(v: View, op: Op)
    requires StreamOk(v) && Proper(op)
    ensures StreamOk(Next(v, op))
  {
    hide OpenLocked, FailLocked, FinishEvents, Emit, StreamOk, AboutItems;
    match op {
      case Start(accepts) => OpeningKeepsOrder(v, None, accepts);
      case Open(meta, accepts, forcedMid) =>
        ForcingKeepsOrder(v, forcedMid);
        OpeningKeepsOrder(Meanwhile(v, forcedMid), meta, accepts);
      case Deliver(meta, frames, acceptsOpening, accepts, forcedFirst, forcedNext) =>
        ForcingKeepsOrder(v, forcedFirst);
        DeliveryKeepsOrder(Meanwhile(v, forcedFirst), meta, frames, acceptsOpening, accepts, forcedNext);
      case Tick(idle, accepts) =>
        OpeningKeepsOrder(v, None, accepts);
        if v.started {
          BeatKeepsOrder(v, accepts);
        }
      case Finish(response, keep, withSummary, stopped, accepts, forcedMid, forcedLate) =>
        ForcingKeepsOrder(v, false);
        if stopped {
          FailKeepsOrder(v, STOPPED, accepts, forcedMid);
        } else {
          LastWriteKeepsOrder(v, response, keep, withSummary, accepts, forcedMid, forcedLate);
        }
      case Fail(err, accepts, forcedMid) => FailKeepsOrder(v, err, accepts, forcedMid);
      case Force => ForcingKeepsOrder(v, true);
    }
  }

  lemma LastWriteKeepsOrder(v: View, response: Response, keep: Option<State>, withSummary: bool, accepts: bool,
      forcedMid: bool, forcedLate: bool)
    requires StreamOk(v)
    ensures var w := Emit(Meanwhile(v, forcedMid), FinishEvents(v, response, keep, withSummary), true, accepts);
            StreamOk(Meanwhile(w.(closed := true), forcedLate))
  {
    hide FinishEvents, StreamCore, Stamped;
    FinishKeepsOrder(v, response, keep, withSummary, accepts);
    var w := Emit(Meanwhile(v, forcedMid), FinishEvents(v, response, keep, withSummary), true, accepts);
    ForcingKeepsOrder(v, forcedMid);
    ForcingKeepsOrder(Meanwhile(v, forcedMid), false);
    assert StreamOk(w.(closed := true));
    ForcingKeepsOrder(w.(closed := true), forcedLate);
  }

  lemma FailKeepsOrder(v: View, err: Failure, accepts: bool, forcedMid: bool)
    requires StreamOk(v)
    ensures StreamOk(FailLocked(v, err, accepts, forcedMid))
  {
    hide StreamCore, FailEvents;
    FailingKeepsOrder(v, err, accepts);
    ForcingKeepsOrder(v, forcedMid);
    ForcingKeepsOrder(Meanwhile(v, forcedMid), false);
  }

  /** Over every interleaving of opening, deliveries, heartbeats, finishing, failing and forced closes: the
      accepted events are numbered 0, 1, 2, ..., start with the only `response.created`, use one response
      id, and contain at most one terminal event, with nothing after it. */
  lemma {:induction false} EveryInterleavingIsOrdered(id: string, heartbeat: bool, ops: seq<Op>)
    requires forall op | op in ops :: Proper(op)
    ensures StreamOk(RunOps(Initial(id, heartbeat), ops))
  {
    if ops == [] {
      assert Bare([]) == [];
    } else {
      var shorter := ops[..|ops| - 1];
      assert forall op | op in shorter :: op in ops;
      EveryInterleavingIsOrdered(id, heartbeat, shorter);
      StepKeepsOrder(RunOps(Initial(id, heartbeat), shorter), ops[|ops| - 1]);
    }
  }

  // ---------- what the client is told ----------

  /** A stream that is opened with an upstream response object takes over its id and announces that object,
      in progress and without output; one opened without uses the session's own id. */
  lemma OpeningTellsId(v: View, meta: Option<Response>)
    requires StreamOk(v) && !v.started && !Silent(v)
    ensures var o := OpenLocked(v, meta, true);
            && |o.accepted| == 2
            && o.accepted[0].event == Created(OpeningOf(v, meta)) && o.accepted[1].event == InProgress(OpeningOf(v, meta))
            && o.responseId == OpeningOf(v, meta).id == StreamId(o)
            && OpeningOf(v, meta).id == (if meta.Some? && meta.value.id != "" then meta.value.id else v.responseId)
            && OpeningOf(v, meta).output == [] && OpeningOf(v, meta).status == "in_progress"
  {
  }

  lemma LastAppended(accepted: seq<Sent>, events: seq<Event>, start: nat)
    requires events != []
    ensures var all := accepted + Stamped(events, start);
            all != [] && all[|all| - 1] == Sent(start + |events| - 1, events[|events| - 1])
  {
  }

  /** A finish that is accepted ends the stream with the response itself, under the id of the stream:
      incomplete when the response is, completed otherwise. */
  lemma FinishTellsResponse(v: View, response: Response, keep: Option<State>, withSummary: bool, late: bool)
    requires StreamOk(v) && !Silent(v)
    ensures var w := Next(v, Finish(response, keep, withSummary, false, true, false, late));
            && w.ended && w.closed && w.accepted != []
            && var last := w.accepted[|w.accepted| - 1].event;
               && (last.Incomplete? <==> response.status == "incomplete")
               && (last.Incomplete? || last.Completed?)
               && last.response.output == response.output
               && last.response.id == (if v.started then v.responseId else response.id)
  {
    hide Synthetic, Kept, StreamOk, Stamped, OutputEvents;
    var events := FinishEvents(v, response, keep, withSummary);
    FinishEndsWith(v, response, keep, withSummary);
    LastAppended(v.accepted, events, v.sequence);
  }

  lemma FinishEndsWith(v: View, response: Response, keep: Option<State>, withSummary: bool)
    ensures var events := FinishEvents(v, response, keep, withSummary);
            && events != []
            && events[|events| - 1] == TerminalEvent(if v.started then response.(id := v.responseId) else response)
  {
    hide OutputEvents, Kept;
    if v.started && keep.Some? {
      var r := response.(id := v.responseId);
      var items := OutputEvents(r.output, |r.output|, withSummary);
      assert Synthetic(r, false, withSummary) == items + [TerminalEvent(r)];
      KeptAppend(keep.value, items, [TerminalEvent(r)]);
      KeptTerminal(keep.value, TerminalEvent(r));
    }
  }

  /** A failure of the request alone is told to the client, with its kind, as the last event of a stream that
      has begun; any other failure, and a client that has gone, is told nothing. */
  lemma FailureIsTold(v: View, err: Failure)
    requires StreamOk(v) && !Silent(v)
    ensures var w := Next(v, Fail(err, true, false));
            && w.closed
            && w.ended == (!SaysClientGone(err) && IsRequestScoped(err))
            && (!w.ended ==> w.accepted == v.accepted)
            && (w.ended ==>
                  && |w.accepted| >= 2
                  && w.accepted[|w.accepted| - 1].event == Failed(Placeholder(v, "failed"), ErrorKind(err)))
  {
    hide SaysClientGone, IsRequestScoped, Ordered, ErrorKind;
  }

  lemma SilentStep(v: View, op: Op)
    requires Silent(v)
    ensures Next(v, op).accepted == v.accepted && Silent(Next(v, op))
  {
    hide FinishEvents, FailEvents, OpeningOf, Stamped, SaysClientGone, IsRequestScoped;
    if op.Finish? || op.Fail? {
      hide OpenLocked;
    } else if op.Deliver? {
      assert Silent(Next(v, op));
    } else {
      hide FailLocked;
    }
  }

  /** Once closed, disconnected or forced, a session accepts nothing more. */
  lemma {:induction false} SilenceIsFinal(v: View, ops: seq<Op>)
    requires Silent(v)
    ensures RunOps(v, ops).accepted == v.accepted && Silent(RunOps(v, ops))
  {
    hide Next, Silent;
    if ops != [] {
      SilenceIsFinal(v, ops[..|ops| - 1]);
      SilentStep(RunOps(v, ops[..|ops| - 1]), ops[|ops| - 1]);
    }
  }

  // ---------- what each operation writes ----------

  /** The response object a stream that has not begun is opened with. */
  function FirstObject(v: View, meta: Option<Response>): Response {
    if meta.Some? && meta.value.id != "" then Response(meta.value.id, "in_progress", [], meta.value.rest)
    else Response(v.responseId, "in_progress", [], "")
  }

  function OpeningEvents(v: View, meta: Option<Response>): seq<Event> {
    if v.started then [] else [Created(FirstObject(v, meta)), InProgress(FirstObject(v, meta))]
  }

  /** An error that concerns the request alone, so that its client is told of it. */
  predicate Tellable(err: Failure) {
    && err.Api? && err.kind !in {"client_disconnected", "upstream_transport", "upstream_timeout", "upstream_response_too_large"}
    && err.status !in {401, 402, 403, 404, 429}
  }

  function FailureEvents(v: View, err: Failure): seq<Event> {
    if !Tellable(err) then []
    else
      (if v.started then [] else [Created(Response(v.responseId, "in_progress", [], ""))])
      + [Failed(Response(v.responseId, "failed", [], ""), if err.kind == "" then "plugin_error" else err.kind)]
  }

  /** What an operation adds to an open stream when the host accepts it and nobody forces a close: heartbeats
      and early openings only with heartbeats on, the frames handed over, the replay of the response under the
      stream's id, or the failure. */
  function Adds(v: View, op: Op): seq<Event> {
    match op
    case Start(_) => if v.heartbeat then OpeningEvents(v, None) else []
    case Open(meta, _, _) => if v.heartbeat then OpeningEvents(v, meta) else []
    case Deliver(meta, frames, _, _, _, _) => OpeningEvents(v, meta) + frames
    case Tick(idle, _) =>
      if v.started && idle then [InProgress(Response(v.responseId, "in_progress", [], ""))] else OpeningEvents(v, None)
    case Finish(response, keep, withSummary, stopped, _, _, _) =>
      if stopped then FailureEvents(v, Api("plugin_stopped", 503))
      else if !v.started then Synthetic(response, true, withSummary)
      else
        var events := Synthetic(Response(v.responseId, response.status, response.output, response.rest), false, withSummary);
        if keep.Some? then Kept(keep.value, events) else events
    case Fail(err, _, _) => FailureEvents(v, err)
    case Force => []
  }

  predicate Accepts(op: Op) {
    match op
    case Start(accepts) => accepts
    case Open(_, accepts, forcedMid) => accepts && !forcedMid
    case Deliver(_, _, acceptsOpening, accepts, forcedFirst, forcedNext) => acceptsOpening && accepts && !forcedFirst && !forcedNext
    case Tick(_, accepts) => accepts
    case Finish(_, _, _, _, accepts, forcedMid, _) => accepts && !forcedMid
    case Fail(_, accepts, forcedMid) => accepts && !forcedMid
    case Force => true
  }

  lemma TellableIff(err: Failure)
    ensures Tellable(err) <==> !SaysClientGone(err) && IsRequestScoped(err)
    ensures Tellable(err) ==> ErrorKind(err) == if err.kind == "" then "plugin_error" else err.kind
  {
  }

  lemma EmitAdds(v: View, events: seq<Event>, done: bool)
    requires !Silent(v)
    ensures Bare(Emit(v, events, done, true).accepted) == Bare(v.accepted) + events
  {
    BareAppend(v.accepted, events, v.sequence);
    hide Bare, Stamped;
  }

  lemma OpeningAdds(v: View, meta: Option<Response>)
    requires !Silent(v)
    ensures Bare(OpenLocked(v, meta, true).accepted) == Bare(v.accepted) + OpeningEvents(v, meta)
    ensures !Silent(OpenLocked(v, meta, true))
  {
    hide Bare, Stamped;
    assert Bare(v.accepted) + [] == Bare(v.accepted);
    if !v.started {
      EmitAdds(v.(responseId := OpeningOf(v, meta).id, started := true), [Created(OpeningOf(v, meta)), InProgress(OpeningOf(v, meta))], false);
    }
  }

  lemma FailureAdds(v: View, err: Failure)
    requires !Silent(v)
    ensures Bare(FailLocked(v, err, true, false).accepted) == Bare(v.accepted) + FailureEvents(v, err)
  {
    hide Bare, Emit, IsRequestScoped, SaysClientGone, Tellable, ErrorKind;
    TellableIff(err);
    assert Bare(v.accepted) + [] == Bare(v.accepted);
    if Tellable(err) {
      assert Meanwhile(v, false) == v;
      EmitAdds(v, FailEvents(v, err), true);
    }
  }

  /** Each operation adds exactly that. */
  lemma OperationAdds(v: View, op: Op)
    requires !Silent(v) && Accepts(op)
    ensures Bare(Next(v, op).accepted) == Bare(v.accepted) + Adds(v, op)
  {
    hide Bare, Emit, OpenLocked, FailLocked, OpeningEvents, FailureEvents, Synthetic, Kept;
    assert Bare(v.accepted) + [] == Bare(v.accepted) && Meanwhile(v, false) == v;
    match op {
      case Start(_) => OpeningAdds(v, None);
      case Open(meta, _, _) => OpeningAdds(v, meta);
      case Deliver(meta, frames, _, _, _, _) =>
        OpeningAdds(v, meta);
        var o := OpenLocked(v, meta, true);
        assert Meanwhile(o, false) == o;
        EmitAdds(o, frames, false);
        assert Bare(v.accepted) + OpeningEvents(v, meta) + frames == Bare(v.accepted) + (OpeningEvents(v, meta) + frames);
      case Tick(idle, _) =>
        if !v.started {
          OpeningAdds(v, None);
        } else {
          OpeningAdds(v, None);
          AlreadyOpen(v);
          EmitAdds(v, [InProgress(Placeholder(v, "in_progress"))], false);
        }
      case Finish(response, keep, withSummary, stopped, _, _, _) =>
        if stopped {
          FailureAdds(v, STOPPED);
        } else {
          EmitAdds(v, FinishEvents(v, response, keep, withSummary), true);
        }
      case Fail(err, _, _) => FailureAdds(v, err);
      case Force =>
    }
  }

  lemma AlreadyOpen(v: View)
    requires v.started
    ensures OpeningEvents(v, None) == []
  {
  }
}
