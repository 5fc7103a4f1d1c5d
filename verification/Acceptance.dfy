/** What being accepted by the strict client means in terms of the events alone: how often each boundary
    of an item's life occurs, and which text its deltas add up to. */
module Acceptance {
  import opened Responses
  import opened Replay
  import opened Client

  /** The boundaries of an item's delivery. */
  datatype Mark = ItemOpens | ItemCloses | PartOpens(k: int) | PartCloses(k: int) | TextCloses(k: int)

  function MarkOf(e: Event): Option<Mark> {
    match e
    case ItemAdded(_, _) => Some(ItemOpens)
    case ItemDone(_, _) => Some(ItemCloses)
    case PartAdded(_, _, k, _, _) => Some(PartOpens(k))
    case PartDone(_, _, k, _, _) => Some(PartCloses(k))
    case TextDone(_, _, k, _, _, _) => Some(TextCloses(k))
    case _ => None
  }

  /** How often output index `i` passes a boundary. */
  function Count(i: int, m: Mark, events: seq<Event>): nat {
    if events == [] then 0
    else (if events[0].OutputIndex() == Some(i) && MarkOf(events[0]) == Some(m) then 1 else 0) + Count(i, m, events[1..])
  }

  /** The concatenated deltas of part `k` of output index `i`. */
  function DeltaText(i: int, k: int, events: seq<Event>): string {
    if events == [] then ""
    else DeltaOf(i, k, events[0]) + DeltaText(i, k, events[1..])
  }

  function DeltaOf(i: int, k: int, e: Event): string {
    if e.TextDelta? && e.index == i && e.part == k then e.delta.GetOr("") else ""
  }

  function PartAt(parts: seq<ClientPart>, k: int): Option<ClientPart> {
    if parts == [] then None
    else if Last(parts).index == k then Some(Last(parts))
    else PartAt(parts[..|parts| - 1], k)
  }

  function PartsIn(c: ClientItem): seq<ClientPart> {
    if c.Present? then c.parts else []
  }

  /** Whether the client has seen output pass the boundary. */
  predicate Passed(c: ClientItem, m: Mark) {
    c.Present?
    && match m
       case ItemOpens => true
       case ItemCloses => c.closed
       case PartOpens(k) => PartAt(c.parts, k).Some?
       case PartCloses(k) => PartAt(c.parts, k).Some? && PartAt(c.parts, k).value.done
       case TextCloses(k) => PartAt(c.parts, k).Some? && PartAt(c.parts, k).value.textDone
  }

  function TextAt(c: ClientItem, k: int): string {
    var p := PartAt(PartsIn(c), k);
    if p.Some? then p.value.text else ""
  }

  ghost predicate Increasing(parts: seq<ClientPart>) {
    forall a, b | 0 <= a < b < |parts| :: parts[a].index < parts[b].index
  }

  lemma {:induction false} NoPartBeyond(parts: seq<ClientPart>, k: int)
    requires Increasing(parts) && (parts != [] ==> Last(parts).index < k)
    ensures PartAt(parts, k) == None
  {
    if parts != [] {
      var front := parts[..|parts| - 1];
      assert front != [] ==> Last(front).index < k;
      NoPartBeyond(front, k);
    }
  }

  function Tally(b: bool): nat {
    if b then 1 else 0
  }

  lemma StepIncreasing(c: ClientItem, e: Event)
    requires Increasing(PartsIn(c)) && ClientStep(c, e).Some?
    ensures Increasing(PartsIn(ClientStep(c, e).value))
  {
    var c' := ClientStep(c, e).value;
    if e.PartAdded? {
      assert forall k | 0 <= k < |c.parts| :: c.parts[k].index <= Last(c.parts).index < e.part;
    } else if e.IsPartEvent() {
      assert |c'.parts| == |c.parts| && forall k | 0 <= k < |c.parts| :: c'.parts[k].index == c.parts[k].index;
    }
  }

  /** One accepted event passes exactly the boundary it marks, for the first time. */
  lemma StepCounts(c: ClientItem, e: Event, m: Mark)
    requires Increasing(PartsIn(c)) && ClientStep(c, e).Some?
    ensures Tally(Passed(ClientStep(c, e).value, m)) == Tally(Passed(c, m)) + Tally(MarkOf(e) == Some(m))
  {
    if e.PartAdded? {
      AddedCounts(c, e, m);
    } else if e.IsPartEvent() {
      TextCounts(c, e, m);
    } else {
      hide ClosesWith, BlankOpening, Increasing;
    }
  }

  lemma AddedCounts(c: ClientItem, e: Event, m: Mark)
    requires e.PartAdded? && Increasing(PartsIn(c)) && ClientStep(c, e).Some?
    ensures Tally(Passed(ClientStep(c, e).value, m)) == Tally(Passed(c, m)) + Tally(MarkOf(e) == Some(m))
  {
    var c' := ClientStep(c, e).value;
    var p := ClientPart(e.part, e.content.Kind(), TextPart(e.ch, e.content), "", [], false, false);
    assert c'.parts == c.parts + [p];
    NoPartBeyond(c.parts, e.part);
    LastPartAt(c.parts, p);
    hide ClientStep, Increasing, TextPart, PartAt;
  }

  lemma TextCounts(c: ClientItem, e: Event, m: Mark)
    requires (e.TextDelta? || e.TextDone? || e.PartDone?) && ClientStep(c, e).Some?
    ensures Tally(Passed(ClientStep(c, e).value, m)) == Tally(Passed(c, m)) + Tally(MarkOf(e) == Some(m))
  {
    var c' := ClientStep(c, e).value;
    var front, q, q' := c.parts[..|c.parts| - 1], Last(c.parts), Last(c'.parts);
    assert c'.parts == front + [q'] && c.parts == front + [q];
    assert q'.index == q.index == e.part;
    assert q'.done == (q.done || e.PartDone?) && !q.done;
    assert q'.textDone == (q.textDone || e.TextDone?) && (e.TextDone? ==> !q.textDone);
    LastPartAt(front, q);
    LastPartAt(front, q');
    hide ClientStep, PartAt, TextPart;
  }

  lemma LastPartAt(front: seq<ClientPart>, p: ClientPart)
    ensures forall k :: PartAt(front + [p], k) == if p.index == k then Some(p) else PartAt(front, k)
  {
    var all := front + [p];
    assert all[..|all| - 1] == front;
  }

  lemma StepText(c: ClientItem, e: Event, i: int, k: int)
    requires Increasing(PartsIn(c)) && ClientStep(c, e).Some? && e.OutputIndex() == Some(i)
    ensures TextAt(ClientStep(c, e).value, k) == TextAt(c, k) + DeltaOf(i, k, e)
  {
    if e.PartAdded? {
      AddedText(c, e, k);
    } else if e.IsPartEvent() {
      TextText(c, e, i, k);
    } else {
      hide ClosesWith, BlankOpening, Increasing, PartAt;
    }
  }

  lemma AddedText(c: ClientItem, e: Event, k: int)
    requires e.PartAdded? && Increasing(PartsIn(c)) && ClientStep(c, e).Some?
    ensures TextAt(ClientStep(c, e).value, k) == TextAt(c, k)
  {
    var p := ClientPart(e.part, e.content.Kind(), TextPart(e.ch, e.content), "", [], false, false);
    assert ClientStep(c, e).value.parts == c.parts + [p];
    NoPartBeyond(c.parts, e.part);
    LastPartAt(c.parts, p);
    hide ClientStep, Increasing, TextPart, PartAt;
  }

  lemma TextText(c: ClientItem, e: Event, i: int, k: int)
    requires (e.TextDelta? || e.TextDone? || e.PartDone?) && ClientStep(c, e).Some? && e.index == i
    ensures TextAt(ClientStep(c, e).value, k) == TextAt(c, k) + DeltaOf(i, k, e)
  {
    var c' := ClientStep(c, e).value;
    var front, q, q' := c.parts[..|c.parts| - 1], Last(c.parts), Last(c'.parts);
    assert c'.parts == front + [q'] && c.parts == front + [q];
    assert q'.index == q.index == e.part;
    assert q'.text == if e.TextDelta? then q.text + e.delta.value else q.text;
    assert e.TextDelta? ==> e.delta.Some?;
    LastPartAt(front, q);
    LastPartAt(front, q');
    hide ClientStep, PartAt, TextPart;
  }

  lemma {:induction false} RunCounts(i: int, c: ClientItem, events: seq<Event>, m: Mark)
    requires Increasing(PartsIn(c)) && ClientRun(i, c, events).Some?
    ensures Increasing(PartsIn(ClientRun(i, c, events).value))
    ensures Tally(Passed(ClientRun(i, c, events).value, m)) == Tally(Passed(c, m)) + Count(i, m, events)
    decreases |events|
  {
    hide ClientStep, Passed, Increasing, PartsIn, MarkOf;
    if events != [] {
      if events[0].OutputIndex() != Some(i) {
        RunCounts(i, c, events[1..], m);
      } else {
        StepIncreasing(c, events[0]);
        StepCounts(c, events[0], m);
        RunCounts(i, ClientStep(c, events[0]).value, events[1..], m);
      }
    }
  }

  lemma {:induction false} RunText(i: int, c: ClientItem, events: seq<Event>, k: int)
    requires Increasing(PartsIn(c)) && ClientRun(i, c, events).Some?
    ensures TextAt(ClientRun(i, c, events).value, k) == TextAt(c, k) + DeltaText(i, k, events)
    decreases |events|
  {
    hide ClientStep, TextAt, Increasing, PartsIn;
    if events != [] {
      if events[0].OutputIndex() != Some(i) {
        assert DeltaOf(i, k, events[0]) == "";
        assert "" + DeltaText(i, k, events[1..]) == DeltaText(i, k, events[1..]);
        RunText(i, c, events[1..], k);
      } else {
        StepIncreasing(c, events[0]);
        StepText(c, events[0], i, k);
        RunText(i, ClientStep(c, events[0]).value, events[1..], k);
        assert (TextAt(c, k) + DeltaOf(i, k, events[0])) + DeltaText(i, k, events[1..])
               == TextAt(c, k) + (DeltaOf(i, k, events[0]) + DeltaText(i, k, events[1..]));
      }
    }
  }

  /** The indices of the parts opened, in order. */
  function Opened(i: int, events: seq<Event>): seq<int> {
    if events == [] then []
    else (if events[0].PartAdded? && events[0].index == i then [events[0].part] else []) + Opened(i, events[1..])
  }

  function Indices(parts: seq<ClientPart>): seq<int> {
    seq(|parts|, k requires 0 <= k < |parts| => parts[k].index)
  }

  lemma StepOpens(c: ClientItem, e: Event, i: int)
    requires ClientStep(c, e).Some? && e.OutputIndex() == Some(i)
    ensures Indices(PartsIn(ClientStep(c, e).value)) == Indices(PartsIn(c)) + (if e.PartAdded? then [e.part] else [])
  {
    var c' := ClientStep(c, e).value;
    if e.IsPartEvent() && !e.PartAdded? {
      assert |c'.parts| == |c.parts| && forall k | 0 <= k < |c.parts| :: c'.parts[k].index == c.parts[k].index;
    }
  }

  lemma OpenedNext(i: int, events: seq<Event>)
    ensures events == [] ==> Opened(i, events) == []
    ensures events != [] && events[0].OutputIndex() != Some(i) ==> Opened(i, events) == Opened(i, events[1..])
    ensures events != [] && events[0].OutputIndex() == Some(i) ==>
              Opened(i, events) == (if events[0].PartAdded? then [events[0].part] else []) + Opened(i, events[1..])
  {
  }

  lemma {:induction false} RunOpens(i: int, c: ClientItem, events: seq<Event>)
    requires ClientRun(i, c, events).Some?
    ensures Indices(PartsIn(ClientRun(i, c, events).value)) == Indices(PartsIn(c)) + Opened(i, events)
    decreases |events|
  {
    hide ClientStep, Indices, PartsIn, Opened;
    OpenedNext(i, events);
    if events != [] {
      if events[0].OutputIndex() != Some(i) {
        RunOpens(i, c, events[1..]);
      } else {
        StepOpens(c, events[0], i);
        RunOpens(i, ClientStep(c, events[0]).value, events[1..]);
        var own := if events[0].PartAdded? then [events[0].part] else [];
        assert (Indices(PartsIn(c)) + own) + Opened(i, events[1..]) == Indices(PartsIn(c)) + (own + Opened(i, events[1..]));
      }
    }
  }

  function Projection(i: int, events: seq<Event>): seq<Event> {
    if events == [] then []
    else (if events[0].OutputIndex() == Some(i) then [events[0]] else []) + Projection(i, events[1..])
  }

  function OwnEvent(i: int, e: Event): seq<Event> {
    if e.OutputIndex() == Some(i) then [e] else []
  }

  lemma {:induction false} ProjectionAppend(i: int, a: seq<Event>, b: seq<Event>)
    ensures Projection(i, a + b) == Projection(i, a) + Projection(i, b)
  {
    hide Event.OutputIndex;
    if a == [] {
      assert a + b == b;
    } else {
      assert (a + b)[1..] == a[1..] + b;
      ProjectionAppend(i, a[1..], b);
      assert Projection(i, a + b) == OwnEvent(i, a[0]) + Projection(i, a[1..] + b);
      assert Projection(i, a) == OwnEvent(i, a[0]) + Projection(i, a[1..]);
    }
  }

  lemma {:induction false} ProjectionOf(i: int, events: seq<Event>, own: bool)
    requires forall e | e in events :: (e.OutputIndex() == Some(i)) == own
    ensures Projection(i, events) == if own then events else []
  {
    if events != [] {
      assert events[0] in events;
      assert forall e | e in events[1..] :: e in events;
      ProjectionOf(i, events[1..], own);
      assert [events[0]] + events[1..] == events;
    }
  }

  /** Nothing is accepted after the item has been closed ... */
  lemma {:induction false} ClosedIsFinal(i: int, c: ClientItem, events: seq<Event>)
    requires c.Present? && c.closed && ClientRun(i, c, events).Some?
    ensures Projection(i, events) == [] && ClientRun(i, c, events).value == c
    decreases |events|
  {
    if events != [] {
      ClosedIsFinal(i, c, events[1..]);
    }
  }

  /** ... so the closing event is the last one of its output index ... */
  lemma {:induction false} CloseComesLast(i: int, c: ClientItem, events: seq<Event>)
    requires ClientRun(i, c, events).Some?
    requires c.Present? ==> !c.closed
    requires var c' := ClientRun(i, c, events).value; c'.Present? && c'.closed
    ensures var own := Projection(i, events);
            own != [] && own[|own| - 1].ItemDone?
            && var item := own[|own| - 1].item;
            ClientRun(i, c, events).value.final == if item.MessageItem? then None else Some(item)
    decreases |events|
  {
    assert events != [];
    if events[0].OutputIndex() != Some(i) {
      CloseComesLast(i, c, events[1..]);
    } else {
      var next := ClientStep(c, events[0]).value;
      ClosingStep(c, events[0]);
      hide ClientStep;
      if next.closed {
        ClosedIsFinal(i, next, events[1..]);
      } else {
        CloseComesLast(i, next, events[1..]);
      }
      assert Projection(i, events) == [events[0]] + Projection(i, events[1..]);
    }
  }

  lemma ClosingStep(c: ClientItem, e: Event)
    requires ClientStep(c, e).Some? && (c.Present? ==> !c.closed)
    ensures ClientStep(c, e).value.Present?
    ensures var c' := ClientStep(c, e).value;
            c'.closed ==> e.ItemDone? && c'.final == if e.item.MessageItem? then None else Some(e.item)
  {
  }

  /** ... and the announcement is the first. */
  lemma {:induction false} OpenComesFirst(i: int, events: seq<Event>)
    requires ClientRun(i, Absent, events).Some? && ClientRun(i, Absent, events).value.Present?
    ensures var own := Projection(i, events); own != [] && own[0].ItemAdded?
    decreases |events|
  {
    assert events != [];
    if events[0].OutputIndex() != Some(i) {
      OpenComesFirst(i, events[1..]);
    }
  }

  /** The delivery of a finished item, told by its events alone: announced first and once, closed last and
      once; every part the client holds opened once, closed once, its text closed once, and no other part
      ever mentioned; and the deltas of each part add up to its text. */
  lemma FinishedItem(i: int, events: seq<Event>, c: ClientItem)
    requires ClientRun(i, Absent, events) == Some(c) && c.Present? && c.closed
    ensures var own := Projection(i, events);
            own != [] && own[0].ItemAdded? && own[|own| - 1].ItemDone?
            && (c.final.Some? ==> own[|own| - 1].item == c.final.value)
    ensures Opened(i, events) == Indices(c.parts) && Increasing(c.parts)
    ensures Count(i, ItemOpens, events) == 1 && Count(i, ItemCloses, events) == 1
    ensures forall k :: PartTold(i, k, events, PartAt(c.parts, k))
  {
    assert Increasing(PartsIn(Absent));
    OpenComesFirst(i, events);
    CloseComesLast(i, Absent, events);
    hide ClientRun, Projection, Count, Opened, DeltaText, Increasing;
    RunCounts(i, Absent, events, ItemOpens);
    RunCounts(i, Absent, events, ItemCloses);
    RunOpens(i, Absent, events);
    assert Indices([]) + Opened(i, events) == Opened(i, events);
    forall k ensures PartTold(i, k, events, PartAt(c.parts, k)) {
      FinishedPart(i, k, events, c);
    }
  }

  /** The events about part `k` tell exactly what the client holds of it. */
  ghost predicate PartTold(i: int, k: int, events: seq<Event>, p: Option<ClientPart>) {
    && Count(i, PartOpens(k), events) == Tally(p.Some?)
    && Count(i, PartCloses(k), events) == Tally(p.Some? && p.value.done)
    && Count(i, TextCloses(k), events) == Tally(p.Some? && p.value.textDone)
    && DeltaText(i, k, events) == (if p.Some? then p.value.text else "")
  }

  lemma FinishedPart(i: int, k: int, events: seq<Event>, c: ClientItem)
    requires ClientRun(i, Absent, events) == Some(c) && c.Present?
    ensures PartTold(i, k, events, PartAt(c.parts, k))
  {
    hide ClientRun, Count, DeltaText, PartAt, Increasing;
    NothingYet(k);
    RunCounts(i, Absent, events, PartOpens(k));
    RunCounts(i, Absent, events, PartCloses(k));
    RunCounts(i, Absent, events, TextCloses(k));
    RunText(i, Absent, events, k);
    assert "" + DeltaText(i, k, events) == DeltaText(i, k, events);
  }

  lemma NothingYet(k: int)
    ensures Increasing(PartsIn(Absent)) && PartAt(PartsIn(Absent), k) == None
  {
  }
}
