/** `streamDelivery` in the program's own form: fields updated in place by `consume`, the trial run over
    the pending events on a probe object, and the read-only checks of the terminal response. */
module Streaming {
  import opened Responses
  import opened Delivery

  class StreamDelivery {
    const bufferUntilValidated: bool
    var committed: bool
    var meta: Option<string>
    var pending: seq<Event>
    var knownMessages: map<int, string>
    var knownParts: map<(int, int), bool>
    var knownReasonings: map<int, string>
    var knownSummaryParts: map<(int, int), bool>
    var messages: map<int, MessageState>
    var reasonings: map<int, ReasoningState>
    var pendingBroken: bool
    var deliveredText: bool
    var deliveredSummary: bool
    var terminal: bool
    var sentinel: bool
    var events: nat
    /** Every message or reasoning event taken in so far. */
    ghost var history: seq<Event>

    constructor (buffered: bool)
      ensures Valid() && Abs() == InitialNaive(buffered)
      ensures Current() == START
    {
      bufferUntilValidated := buffered;
      committed, meta, pending := false, None, [];
      knownMessages, knownParts := map[], map[];
      knownReasonings, knownSummaryParts := map[], map[];
      messages, reasonings := map[], map[];
      pendingBroken, deliveredText, deliveredSummary := false, false, false;
      terminal, sentinel, events := false, false, 0;
      history := [];
    }

    ghost function Abs(): Naive
      reads this
    {
      Naive(bufferUntilValidated, history, committed, meta, terminal, sentinel, events, deliveredText, deliveredSummary)
    }

    function Current(): State
      reads this`messages, this`reasonings
    {
      State(messages, reasonings)
    }

    /** A checked machine holds the state its history leads to; an uncommitted one holds the whole
        history, what the pre-filter learned from it, and never gives up on a consistent history. */
    ghost predicate Valid()
      reads this
    {
      && !(committed && bufferUntilValidated)
      && if committed || bufferUntilValidated then
           Run(history).Some? && Run(history).value.st == Current()
         else
           && pending == history
           && knownMessages == KnownItems(Content, history)
           && knownParts == KnownParts(Content, history)
           && knownReasonings == KnownItems(Summary, history)
           && knownSummaryParts == KnownParts(Summary, history)
           && (pendingBroken ==> Run(history).None?)
    }

    method Consume(u: Upstream) returns (err: Option<StreamError>, effect: Effect)
      requires Valid()
      modifies this
      ensures Valid()
      ensures Step(Abs(), err, effect) == NaiveStep(old(Abs()), u)
    {
      hide Valid, NaiveOutput, Progress, Numbered;
      CountEvent();
      if u.DoneMarker? {
        MarkSentinel();
        return None, Quiet;
      }
      if u.BadJson? {
        return Some(InvalidJson), Quiet;
      }
      if terminal || sentinel {
        return Some(Inconsistent), Quiet;
      }
      if u.Output? {
        if !Progress(u.ev) {
          return None, Quiet;
        }
        if !Numbered(u.ev) {
          return Some(Inconsistent), Quiet;
        }
        err, effect := ConsumeOutput(u.ev);
      } else {
        err, effect := ConsumeOther(u);
      }
    }

    method CountEvent()
      requires Valid()
      modifies this`events
      ensures Valid() && Abs() == old(Abs()).(events := old(events) + 1) && events > 0
    {
      events := events + 1;
    }

    method MarkSentinel()
      requires Valid()
      modifies this`sentinel
      ensures Valid() && Abs() == old(Abs()).(sentinel := true)
    {
      sentinel := true;
    }

    /** Everything that is no message or reasoning event. */
    method ConsumeOther(u: Upstream) returns (err: Option<StreamError>, effect: Effect)
      requires Valid() && !u.DoneMarker? && !u.BadJson? && !u.Output? && !terminal && !sentinel && events > 0
      modifies this`terminal, this`meta
      ensures Valid()
      ensures Step(Abs(), err, effect) == NaiveStep(old(Abs()).(events := old(events) - 1), u)
    {
      hide Run, KnownItems, KnownParts, NaiveOutput, Progress, Numbered;
      match u {
        case Failure(reason) => return Some(UpstreamFailed(reason)), Quiet;
        case Terminal =>
          terminal := true;
          return None, Quiet;
        case Meta(id) =>
          if meta.Some? && meta.value != id {
            return Some(Inconsistent), Quiet;
          }
          if meta.None? && id != "" {
            meta := Some(id);
            return None, Announce(id);
          }
          return None, Quiet;
        case Unnumbered => return Some(Inconsistent), Quiet;
        case Ignored => return None, Quiet;
      }
    }

    /** The part of `consume` behind the classification. */
    method ConsumeOutput(e: Event) returns (err: Option<StreamError>, effect: Effect)
      requires Valid() && Progress(e) && Numbered(e)
      modifies this
      ensures Valid()
      ensures Step(Abs(), err, effect) == NaiveOutput(old(Abs()), e)
    {
      hide Run, KnownItems, KnownParts, LearnItem, LearnPart, Progress, Numbered, Apply, Delivers;
      if bufferUntilValidated || committed {
        Learn(e);
        err, effect := CheckAndForward(e);
      } else {
        effect := Gather(e);
        err := None;
      }
    }

    /** Buffered and committed: the event must fit; only a committed machine shows it to the client. */
    method CheckAndForward(e: Event) returns (err: Option<StreamError>, effect: Effect)
      requires bufferUntilValidated != committed
      requires Run(history).Some? && Run(history).value.st == Current()
      modifies this`messages, this`reasonings, this`history, this`deliveredText, this`deliveredSummary
      ensures Run(history).Some? && Run(history).value.st == Current()
      ensures Step(Abs(), err, effect) == NaiveOutput(old(Abs()), e)
    {
      hide Run, Apply, Delivers;
      var ok, frame := ApplyEvent(e);
      if !ok {
        return Some(Inconsistent), Quiet;
      }
      RunAppend(history, e);
      history := history + [e];
      if bufferUntilValidated || frame.None? {
        return None, Quiet;
      }
      NoteDelivered([frame.value]);
      return None, Forward(None, [frame.value]);
    }

    /** Uncommitted: records the event, and commits when it is a delta that completes a consistent history. */
    method Gather(e: Event) returns (effect: Effect)
      requires Valid() && Progress(e) && Numbered(e) && !bufferUntilValidated && !committed
      modifies this
      ensures Valid()
      ensures Step(Abs(), None, effect) == NaiveOutput(old(Abs()), e)
    {
      hide Run, KnownItems, KnownParts, Delivers, Progress, Numbered;
      ghost var before := history;
      Record(e);
      if !NonEmptyDelta(e) || meta.None? {
        return Quiet;
      }
      var frames, ok := TryCommit(e, before);
      if !ok {
        return Quiet;
      }
      committed := true;
      NoteDelivered(frames);
      return Forward(meta, frames);
    }

    /** Appends an event to the pending ones. */
    method Record(e: Event)
      requires Valid() && Progress(e) && Numbered(e) && !bufferUntilValidated && !committed
      modifies this`history, this`pending, this`knownMessages, this`knownParts, this`knownReasonings, this`knownSummaryParts
      ensures Valid()
      ensures history == old(history) + [e]
    {
      hide Run, KnownItems, KnownParts, LearnItem, LearnPart, Progress, Numbered;
      Learn(e);
      KnownAppend(Content, history, e);
      KnownAppend(Summary, history, e);
      RunAppend(history, e);
      pending := pending + [e];
      history := history + [e];
    }

    /** At a non-empty delta with the response id known: the frames of a consistent pending batch. */
    method TryCommit(e: Event, ghost before: seq<Event>) returns (frames: seq<Event>, ok: bool)
      requires NonEmptyDelta(e) && pending == before + [e]
      requires knownMessages == KnownItems(Content, pending) && knownParts == KnownParts(Content, pending)
      requires knownReasonings == KnownItems(Summary, pending) && knownSummaryParts == KnownParts(Summary, pending)
      requires pendingBroken ==> Run(pending).None?
      modifies this`messages, this`reasonings, this`pending, this`pendingBroken
      ensures ok == Run(old(pending)).Some?
      ensures ok ==> Run(old(pending)) == Some(Ran(Current(), frames))
      ensures !ok ==> pending == old(pending)
    {
      hide Run, KnownItems, KnownParts;
      RunAppend(before, e);
      if Run(pending).Some? {
        FilterPassesConsistentDeltas(before, e);
      }
      if !Passes(e) || pendingBroken {
        return [], false;
      }
      frames, ok := ReplayPending();
      if !ok {
        pendingBroken := true;
      }
    }

    /** The pre-filter of the commit: the delta's item and part have been announced. */
    predicate Passes(e: Event)
      requires e.TextDelta?
      reads this
    {
      if e.ch == Content then PassesFilter(knownMessages, knownParts, e)
      else PassesFilter(knownReasonings, knownSummaryParts, e)
    }

    /** Records announced items and parts for the pre-filter. */
    method Learn(e: Event)
      requires Progress(e) && Numbered(e)
      modifies this`knownMessages, this`knownParts, this`knownReasonings, this`knownSummaryParts
      ensures knownMessages == LearnItem(Content, old(knownMessages), e)
      ensures knownParts == LearnPart(Content, old(knownParts), e)
      ensures knownReasonings == LearnItem(Summary, old(knownReasonings), e)
      ensures knownSummaryParts == LearnPart(Summary, old(knownSummaryParts), e)
    {
      if e.ItemAdded? && e.item.MessageItem? {
        knownMessages := knownMessages[e.index := e.item.id];
      }
      if e.ItemAdded? && e.item.ReasoningItem? {
        knownReasonings := knownReasonings[e.index := e.item.id];
      }
      if e.PartAdded? && e.ch == Summary {
        knownSummaryParts := knownSummaryParts[(e.index, e.part) := true];
      }
      if e.PartAdded? && e.ch == Content {
        knownParts := knownParts[(e.index, e.part) := e.content.Kind() == "output_text"];
      }
    }

    /** Runs the pending events on a fresh machine and takes over its state when all of them apply. */
    method ReplayPending() returns (frames: seq<Event>, ok: bool)
      modifies this`messages, this`reasonings, this`pending
      ensures ok == Run(old(pending)).Some?
      ensures ok ==> Run(old(pending)) == Some(Ran(Current(), frames)) && pending == []
      ensures !ok ==> Current() == old(Current()) && pending == old(pending)
    {
      var probe := new StreamDelivery(false);
      frames := [];
      var i := 0;
      assert pending[..0] == [];
      while i < |pending|
        invariant 0 <= i <= |pending|
        invariant fresh(probe)
        invariant pending == old(pending) && Current() == old(Current())
        invariant Run(pending[..i]) == Some(Ran(probe.Current(), frames))
      {
        hide Run, Apply, Progress;
        RunAppend(pending[..i], pending[i]);
        assert pending[..i] + [pending[i]] == pending[..i + 1];
        var applied, frame := probe.ApplyEvent(pending[i]);
        if !applied {
          RunFailsOn(pending, i + 1);
          return [], false;
        }
        assert frames + [] == frames;
        if frame.Some? {
          frames := frames + [frame.value];
        }
        i := i + 1;
      }
      assert pending[..i] == pending;
      messages, reasonings := probe.messages, probe.reasonings;
      pending := [];
      ok := true;
    }

    /** Notes which kinds of text a batch hands to the client. */
    method NoteDelivered(frames: seq<Event>)
      modifies this`deliveredText, this`deliveredSummary
      ensures deliveredText == (old(deliveredText) || Delivers(Content, frames))
      ensures deliveredSummary == (old(deliveredSummary) || Delivers(Summary, frames))
    {
      for i := 0 to |frames|
        invariant deliveredText == (old(deliveredText) || Delivers(Content, frames[..i]))
        invariant deliveredSummary == (old(deliveredSummary) || Delivers(Summary, frames[..i]))
      {
        var frame := frames[i];
        DeliversAppend(Content, frames[..i], frame);
        DeliversAppend(Summary, frames[..i], frame);
        assert frames[..i] + [frame] == frames[..i + 1];
        if NonEmptyDelta(frame) {
          if frame.ch == Content {
            deliveredText := true;
          } else {
            deliveredSummary := true;
          }
        }
      }
      assert frames[..|frames|] == frames;
    }

    /** Checks one event against the state and updates it; `frame` is what the client may see. */
    method ApplyEvent(e: Event) returns (ok: bool, frame: Option<Event>)
      modifies this`messages, this`reasonings
      ensures ok == Apply(old(Current()), e).Some?
      ensures ok ==> Apply(old(Current()), e) == Some(Applied(Current(), frame))
      ensures !ok ==> Current() == old(Current())
    {
      if !Progress(e) {
        return false, None;
      }
      if IsReasoningEvent(e) {
        ok, frame := ApplyReasoningEvent(e);
      } else {
        ok, frame := ApplyMessageEvent(e);
      }
    }

    method ApplyReasoningEvent(e: Event) returns (ok: bool, frame: Option<Event>)
      requires Progress(e) && IsReasoningEvent(e)
      modifies this`reasonings
      ensures ok == ApplyReasoning(old(Current()), e).Some?
      ensures ok ==> ApplyReasoning(old(Current()), e) == Some(Applied(Current(), frame))
      ensures !ok ==> Current() == old(Current())
    {
      var index := e.index;
      if e.ItemAdded? {
        if index in reasonings || index in messages || e.item.id == "" {
          return false, None;
        }
        reasonings := reasonings[index := ReasoningState(e.item.id, map[], false, None)];
        return true, Some(ItemAdded(index, e.item.(summary := Some([]), cipher := None)));
      }
      if index !in reasonings || reasonings[index].upstreamDone {
        return false, None;
      }
      var r := reasonings[index];
      if e.ItemDone? {
        var valid := CheckItem(r, e.item);
        var allDone := AllDone(r.summaries);
        if !valid || !allDone {
          return false, None;
        }
        reasonings := reasonings[index := r.(upstreamDone := true, doneSummary := e.item.summary)];
        return true, None;
      }
      if e.itemId != r.id {
        return false, None;
      }
      var applied, parts, sent := ApplyPartEvent(r.summaries, e);
      if !applied {
        return false, None;
      }
      reasonings := reasonings[index := r.(summaries := parts)];
      return true, Some(sent);
    }

    method ApplyMessageEvent(e: Event) returns (ok: bool, frame: Option<Event>)
      requires Progress(e) && !IsReasoningEvent(e)
      modifies this`messages
      ensures ok == ApplyMessage(old(Current()), e).Some?
      ensures ok ==> ApplyMessage(old(Current()), e) == Some(Applied(Current(), frame))
      ensures !ok ==> Current() == old(Current())
    {
      var index := e.index;
      if e.ItemAdded? {
        if index in messages || index in reasonings || e.item.id == "" {
          return false, None;
        }
        messages := messages[index := MessageState(e.item.id, map[], false)];
        return true, Some(ItemAdded(index, e.item.(status := "in_progress", content := [])));
      }
      if index !in messages || messages[index].done {
        return false, None;
      }
      var m := messages[index];
      if e.ItemDone? {
        var matches := CheckMessageDone(m, e.item);
        if !matches {
          return false, None;
        }
        messages := messages[index := m.(done := true)];
        return true, Some(e);
      }
      if e.itemId != m.id {
        return false, None;
      }
      var applied, parts, sent := ApplyPartEvent(m.parts, e);
      if !applied {
        return false, None;
      }
      messages := messages[index := m.(parts := parts)];
      return true, Some(sent);
    }

    /** A finished message holds exactly the parts opened of it, with the text delivered. */
    static method CheckMessageDone(m: MessageState, item: Item) returns (matches: bool)
      requires item.MessageItem?
      ensures matches == MessageDoneMatches(m, item)
    {
      if item.id != m.id || |item.content| != |m.parts| {
        return false;
      }
      var todo := m.parts.Keys;
      while todo != {}
        invariant todo <= m.parts.Keys
        invariant forall k | k in m.parts && k !in todo :: DonePartMatches(m.parts[k], k, item.content)
        decreases |todo|
      {
        NonEmptySet(todo);
        var k :| k in todo;
        if !DonePartMatches(m.parts[k], k, item.content) {
          return false;
        }
        todo := todo - {k};
      }
      matches := true;
    }

    /** Opens, fills or closes one part of an item. */
    static method ApplyPartEvent(parts: map<int, PartState>, e: Event)
      returns (ok: bool, parts': map<int, PartState>, frame: Event)
      requires e.IsPartEvent()
      ensures ok == ApplyPart(parts, e).Some?
      ensures ok ==> ApplyPart(parts, e) == Some((parts', frame))
    {
      parts', frame := parts, e;
      if e.PartAdded? {
        if e.part in parts || e.part != |parts| || (e.part > 0 && !(e.part - 1 in parts && parts[e.part - 1].done)) {
          return false, parts, e;
        }
        if e.ch == Summary && e.content.Kind() != "summary_text" {
          return false, parts, e;
        }
        parts' := parts[e.part := PartState(e.content.Kind(), "", [], false, false)];
        return true, parts', PartAdded(e.ch, e.index, e.part, e.itemId, Opening(e.ch, e.content));
      }
      if e.part !in parts || parts[e.part].done {
        return false, parts, e;
      }
      var p := ApplyText(parts[e.part], e);
      if p.None? {
        return false, parts, e;
      }
      return true, parts[e.part := p.value], ForwardedText(e);
    }

    static method AllDone(parts: map<int, PartState>) returns (b: bool)
      ensures b <==> forall k | k in parts :: parts[k].done
    {
      var todo := parts.Keys;
      while todo != {}
        invariant todo <= parts.Keys
        invariant forall k | k in parts && k !in todo :: parts[k].done
        decreases |todo|
      {
        NonEmptySet(todo);
        var k :| k in todo;
        if !parts[k].done {
          return false;
        }
        todo := todo - {k};
      }
      b := true;
    }

    /** `validateItem`: the summary of an item against what has been opened of it. */
    static method CheckItem(r: ReasoningState, item: Item) returns (valid: bool)
      ensures valid == ValidateItem(r, item)
    {
      if !item.ReasoningItem? || item.id != r.id {
        return false;
      }
      if r.upstreamDone && item.summary != r.doneSummary {
        return false;
      }
      var summaries := item.summary.GetOr([]);
      var todo := r.summaries.Keys;
      while todo != {}
        invariant todo <= r.summaries.Keys
        invariant forall k | k in r.summaries && k !in todo :: SummaryMatches(r.summaries[k], k, summaries)
        decreases |todo|
      {
        NonEmptySet(todo);
        var k :| k in todo;
        if !SummaryMatches(r.summaries[k], k, summaries) {
          return false;
        }
        todo := todo - {k};
      }
      valid := true;
    }

    /** `validateFinal`. */
    method ValidateFinal(r: Response) returns (ok: bool)
      requires Valid()
      ensures ok == FinalAccepted(Abs(), r)
    {
      hide Run, ValidateItem, MessageAccepted, KnownItems, KnownParts;
      if !committed && !bufferUntilValidated {
        return true;
      }
      if meta.Some? && r.id != meta.value {
        return false;
      }
      var todo := reasonings.Keys;
      while todo != {}
        invariant todo <= reasonings.Keys
        invariant forall i | i in reasonings && i !in todo :: 0 <= i < |r.output| && ValidateItem(reasonings[i], r.output[i])
        decreases |todo|
      {
        NonEmptySet(todo);
        var i :| i in todo;
        if !(0 <= i < |r.output|) {
          return false;
        }
        var valid := CheckItem(reasonings[i], r.output[i]);
        if !valid {
          return false;
        }
        todo := todo - {i};
      }
      todo := messages.Keys;
      while todo != {}
        invariant todo <= messages.Keys
        invariant forall i | i in messages && i !in todo :: 0 <= i < |r.output| && MessageAccepted(messages[i], r.output[i])
        decreases |todo|
      {
        NonEmptySet(todo);
        var i :| i in todo;
        if !(0 <= i < |r.output|) {
          return false;
        }
        var accepted := CheckMessage(messages[i], r.output[i]);
        if !accepted {
          return false;
        }
        todo := todo - {i};
      }
      ok := true;
    }

    /** The message half of `validateFinal`, for one message. */
    static method CheckMessage(m: MessageState, item: Item) returns (accepted: bool)
      ensures accepted == MessageAccepted(m, item)
    {
      if !item.MessageItem? || item.id != m.id {
        return false;
      }
      if m.done && |item.content| != |m.parts| {
        return false;
      }
      var todo := m.parts.Keys;
      while todo != {}
        invariant todo <= m.parts.Keys
        invariant forall k | k in m.parts && k !in todo :: PartAccepted(m.parts[k], k, item.content)
        decreases |todo|
      {
        NonEmptySet(todo);
        var k :| k in todo;
        if !PartAccepted(m.parts[k], k, item.content) {
          return false;
        }
        todo := todo - {k};
      }
      accepted := true;
    }
  }

  lemma NonEmptySet(s: set<int>)
    ensures s == {} || exists k :: k in s
  {
    if !exists k :: k in s {
      assert s == {};
    }
  }

  lemma {:induction false} RunFailsOn(history: seq<Event>, n: nat)
    requires n <= |history| && Run(history[..n]).None?
    ensures Run(history).None?
    decreases |history| - n
  {
    if n == |history| {
      assert history[..n] == history;
    } else {
      RunAppend(history[..n], history[n]);
      assert history[..n] + [history[n]] == history[..n + 1];
      RunFailsOn(history, n + 1);
    }
  }

  lemma DeliversAppend(ch: Channel, frames: seq<Event>, e: Event)
    ensures Delivers(ch, frames + [e]) == (Delivers(ch, frames) || (NonEmptyDelta(e) && e.ch == ch))
  {
    var all := frames + [e];
    assert all[|frames|] == e;
    assert forall k | 0 <= k < |frames| :: all[k] == frames[k];
  }
}
