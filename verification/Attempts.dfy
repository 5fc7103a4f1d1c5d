/** The attempt loops of internal/basispoints/service.go: `executeStream` after the downstream stream has
    been set up, and `executeOnce`. At most one regeneration, and never after something was shown. */
module Attempts {
  import opened Responses
  import opened Delivery
  import opened Streaming
  import Session
  import opened Relay
  import opened Batch
  import opened Summary
  import Catalog
  import Turn

  /** What the environment answers in one round trip: a failed connection, the decoded upstream events, a
      read error after them, and the terminal response parsed from the whole body. */
  datatype Trip = Trip(connect: Option<Session.Failure>, upstream: seq<Upstream>, readErr: Option<Session.Failure>,
                       parsed: Result<Response, Session.Failure>)

  /** Why a request failed. */
  datatype Stop =
    | NotConnected(err: Session.Failure)
    | StreamRejected(why: StreamError)
    | ReadFailed(err: Session.Failure)
    | BadTerminal(err: Session.Failure)
    | NotAsStreamed
    | BadTools(reason: string)
    | OutOfTime

  /** How far one round trip gets: it stops, or its terminal response is checked. */
  datatype Tried =
    | Broken(stop: Stop)
    | Judged(raw: Response, check: Result<Transformed, string>)

  /** The machine the upstream events of a trip leave behind. */
  function FedBy(buffered: bool, trip: Trip): Fed {
    Feed(buffered, if trip.connect.Some? then [] else trip.upstream)
  }

  function Try(codec: Codec, terms: Terms, buffered: bool, trip: Trip): Tried {
    var f := FedBy(buffered, trip);
    if trip.connect.Some? then Broken(NotConnected(trip.connect.value))
    else if f.err.Some? then Broken(StreamRejected(f.err.value))
    else if trip.readErr.Some? then Broken(ReadFailed(trip.readErr.value))
    else if trip.parsed.Err? then Broken(BadTerminal(trip.parsed.error))
    else if !FinalAccepted(f.n, trip.parsed.value) then Broken(NotAsStreamed)
    else Judged(trip.parsed.value, Transform(codec, terms, trip.parsed.value.output))
  }

  /** Whether the failure of attempt number `attempt` allows another one. */
  predicate RelayRetry(status: string, attempt: nat) {
    attempt == 0 && status != "incomplete"
  }

  /** What is handed to the session in the end: a response, and the machine's state if frames were shown. */
  datatype Answer = GaveUp(stop: Stop) | Answered(response: Response, keep: Option<State>)

  /** The first attempt has failed for the tools alone, and nothing has been shown. */
  predicate Retries(buffered: bool, trip: Trip, t: Tried) {
    t.Judged? && t.check.Err? && t.raw.status != "incomplete" && !FedBy(buffered, trip).n.committed
  }

  function AnswerOf(buffered: bool, trip: Trip, t: Tried): Answer {
    match t
    case Broken(stop) => GaveUp(stop)
    case Judged(raw, Err(reason)) => GaveUp(BadTools(reason))
    case Judged(raw, Ok(done)) =>
      var n := FedBy(buffered, trip).n;
      Answered(raw.(output := done.output),
                if n.committed && Run(n.history).Some? then Some(Run(n.history).value.st) else None)
  }

  /** The events of one trip go through the machine one by one, up to the first error. */
  method Receive(d: StreamDelivery, us: seq<Upstream>) returns (shown: seq<Event>, err: Option<StreamError>)
    requires d.Valid() && d.Abs() == InitialNaive(d.bufferUntilValidated)
    modifies d
    ensures d.Valid() && Fed(d.Abs(), shown, err) == Feed(d.bufferUntilValidated, us)
  {
    hide NaiveStep, Feed, Delivery.Run;
    shown, err := [], None;
    var k := 0;
    FeedStart(d.bufferUntilValidated, us);
    while k < |us| && err.None?
      invariant k <= |us| && d.Valid() && Fed(d.Abs(), shown, err) == Feed(d.bufferUntilValidated, us[..k])
    {
      var effect;
      FeedNext(d.bufferUntilValidated, us, k);
      err, effect := d.Consume(us[k]);
      shown := shown + effect.Frames();
      k := k + 1;
    }
    if k == |us| {
      assert us[..k] == us;
    } else {
      FeedStops(d.bufferUntilValidated, us, k);
    }
  }

  lemma FeedStart(buffered: bool, us: seq<Upstream>)
    ensures Feed(buffered, us[..0]) == Fed(InitialNaive(buffered), [], None)
  {
  }

  lemma FeedNext(buffered: bool, us: seq<Upstream>, k: nat)
    requires k < |us| && Feed(buffered, us[..k]).err.None?
    ensures var before := Feed(buffered, us[..k]);
            var s := NaiveStep(before.n, us[k]);
            Feed(buffered, us[..k + 1]) == Fed(s.next, before.sent + s.effect.Frames(), s.err)
  {
    hide NaiveStep;
    assert us[..k + 1][..k] == us[..k];
  }

  lemma {:induction false} FeedStops(buffered: bool, us: seq<Upstream>, k: nat)
    requires k <= |us| && Feed(buffered, us[..k]).err.Some?
    ensures Feed(buffered, us) == Feed(buffered, us[..k])
  {
    hide NaiveStep;
    if k == |us| {
      assert us[..k] == us;
    } else {
      assert us[..|us| - 1][..k] == us[..k];
      FeedStops(buffered, us[..|us| - 1], k);
    }
  }

  /** Whether a second round trip is begun. */
  predicate Repeats(codec: Codec, terms: Terms, buffered: bool, trips: nat -> Trip, timeLeft: bool) {
    Retries(buffered, trips(0), Try(codec, terms, buffered, trips(0))) && timeLeft
  }

  /** Everything handed to the session over all round trips. */
  function StreamShown(codec: Codec, terms: Terms, buffered: bool, trips: nat -> Trip, timeLeft: bool): seq<Event> {
    FedBy(buffered, trips(0)).sent + (if Repeats(codec, terms, buffered, trips, timeLeft) then FedBy(buffered, trips(1)).sent else [])
  }

  function StreamAnswer(codec: Codec, terms: Terms, buffered: bool, trips: nat -> Trip, timeLeft: bool): Answer {
    var t1 := Try(codec, terms, buffered, trips(0));
    if !Retries(buffered, trips(0), t1) then AnswerOf(buffered, trips(0), t1)
    else if !timeLeft then GaveUp(OutOfTime)
    else AnswerOf(buffered, trips(1), Try(codec, terms, buffered, trips(1)))
  }

  /** One round trip from its connection to its answer; `again` when it failed for its tools alone, was not
      cut short and has shown nothing. */
  method RoundTrip(codec: Codec, terms: Terms, buffered: bool, trip: Trip, summary: RelaySummary)
    returns (answer: Answer, again: bool, frames: seq<Event>)
    requires summary.Valid()
    modifies summary
    ensures var t := Try(codec, terms, buffered, trip);
            && answer == AnswerOf(buffered, trip, t) && again == Retries(buffered, trip, t) && frames == FedBy(buffered, trip).sent
            && summary.Valid() && summary.log == old(summary.log) + ChecksOf(CheckOf(t))
  {
    hide FedBy, Delivery.Run, TallyOf, Transform;
    assert old(summary.log) + [] == old(summary.log);
    if trip.connect.Some? {
      NothingWithoutConnection(codec, terms, buffered, trip);
      return GaveUp(NotConnected(trip.connect.value)), false, [];
    }
    hide Try;
    var stop, check, d;
    stop, check, frames, d := OneTrip(codec, terms, buffered, trip, summary);
    if stop.Some? {
      return GaveUp(stop.value), false, frames;
    }
    if check.Ok? {
      var keep := if d.committed then Some(d.Current()) else None;
      return Answered(trip.parsed.value.(output := check.value.output), keep), false, frames;
    }
    // What has been shown cannot be repeated.
    return GaveUp(BadTools(check.error)), !d.committed && trip.parsed.value.status != "incomplete", frames;
  }

  /** The streaming loop. A second round trip is made exactly when the first one failed for its tools, was
      not cut short, had shown nothing, and time is left; the answer is then that of the second. */
  method ExecuteStream(codec: Codec, terms: Terms, buffered: bool, trips: nat -> Trip, timeLeft: bool)
    returns (summary: RelaySummary, shown: seq<Event>, answer: Answer)
    ensures fresh(summary) && summary.Valid()
    ensures var t1, t2 := Try(codec, terms, buffered, trips(0)), Try(codec, terms, buffered, trips(1));
            summary.log ==
              if !Retries(buffered, trips(0), t1) then OneAttempt(CheckOf(t1), false)
              else if !timeLeft then OneAttempt(CheckOf(t1), true)
              else TwoAttempts(t1.check, CheckOf(t2))
    ensures shown == StreamShown(codec, terms, buffered, trips, timeLeft)
    ensures answer == StreamAnswer(codec, terms, buffered, trips, timeLeft)
  {
    hide Try, FedBy, TallyOf, AnswerOf, CheckOf, ChecksOf;
    ghost var t1 := Try(codec, terms, buffered, trips(0));
    ghost var first := FedBy(buffered, trips(0)).sent;
    assert first + [] == first && [] + first == first;
    LogsOf(t1);
    LogsOf(Try(codec, terms, buffered, trips(1)));
    summary := new RelaySummary();
    summary.AttemptStarted();
    shown := [];
    var attempt := 0;
    while true
      invariant attempt <= 1 && summary.Valid() && fresh(summary)
      invariant attempt == 0 ==> summary.log == [Began] && shown == []
      invariant attempt == 1 ==>
                  && Retries(buffered, trips(0), t1) && timeLeft && shown == first
                  && summary.log == OneAttempt(CheckOf(t1), true) + [Began]
      decreases 1 - attempt
    {
      var again, frames;
      answer, again, frames := RoundTrip(codec, terms, buffered, trips(attempt), summary);
      shown := shown + frames;
      if !again || attempt != 0 {
        return summary, shown, answer;
      }
      summary.Regenerating();
      if !timeLeft {
        return summary, shown, GaveUp(OutOfTime);
      }
      summary.AttemptStarted();
      attempt := attempt + 1;
    }
  }

  /** The summary log of one attempt and its check. */
  lemma LogsOf(t: Tried)
    ensures OneAttempt(CheckOf(t), false) == [Began] + ChecksOf(CheckOf(t))
    ensures OneAttempt(CheckOf(t), true) == [Began] + ChecksOf(CheckOf(t)) + [Decided]
    ensures t.Judged? ==> CheckOf(t) == Some(t.check)
    ensures forall check :: TwoAttempts(check, CheckOf(t)) == OneAttempt(Some(check), true) + [Began] + ChecksOf(CheckOf(t))
  {
  }

  function CheckOf(t: Tried): Option<Result<Transformed, string>> {
    if t.Judged? then Some(t.check) else None
  }

  /** The body of the loop up to the check of the tools. */
  method OneTrip(codec: Codec, terms: Terms, buffered: bool, trip: Trip, summary: RelaySummary)
    returns (stop: Option<Stop>, check: Result<Transformed, string>, shown: seq<Event>, d: StreamDelivery)
    requires trip.connect.None? && summary.Valid()
    modifies summary
    ensures summary.Valid() && fresh(d) && d.Valid()
    ensures d.Abs() == FedBy(buffered, trip).n && shown == FedBy(buffered, trip).sent
    ensures match Try(codec, terms, buffered, trip)
            case Broken(s) => stop == Some(s) && summary.log == old(summary.log)
            case Judged(raw, c) =>
              stop.None? && check == c && trip.parsed == Ok(raw) && summary.log == old(summary.log) + [Checked(c)]
  {
    d := new StreamDelivery(buffered);
    check := Err("");
    var err;
    shown, err := Receive(d, trip.upstream);
    if err.Some? {
      return Some(StreamRejected(err.value)), check, shown, d;
    }
    if trip.readErr.Some? {
      return Some(ReadFailed(trip.readErr.value)), check, shown, d;
    }
    if trip.parsed.Err? {
      return Some(BadTerminal(trip.parsed.error)), check, shown, d;
    }
    var response := trip.parsed.value;
    var accepted := d.ValidateFinal(response);
    if !accepted {
      return Some(NotAsStreamed), check, shown, d;
    }
    check := TransformOutput(codec, terms, response.output);
    summary.Validated(check);
    stop := None;
  }

  /** A request without streaming: a check that fails for the tools of a complete first response is
      repeated once, and the answer is then that of the second. */
  method ExecuteOnce(codec: Codec, terms: Terms, answers: nat -> Result<Response, Session.Failure>)
    returns (summary: RelaySummary, answer: Answer)
    ensures fresh(summary) && summary.Valid()
    ensures var t1, t2 := TryOnce(codec, terms, answers(0)), TryOnce(codec, terms, answers(1));
            if t1.Judged? && t1.check.Err? && t1.raw.status != "incomplete" then
              summary.log == TwoAttempts(t1.check, CheckOf(t2)) && answer == AnswerOnce(t2)
            else
              summary.log == OneAttempt(CheckOf(t1), false) && answer == AnswerOnce(t1)
  {
    hide Transform, RelaySummary.Valid;
    summary := new RelaySummary();
    var attempt := 0;
    while true
      invariant attempt <= 1 && summary.Valid() && fresh(summary)
      invariant attempt == 0 ==> summary.log == []
      invariant attempt == 1 ==>
                  var t1 := TryOnce(codec, terms, answers(0));
                  && t1.Judged? && t1.check.Err? && t1.raw.status != "incomplete"
                  && summary.log == OneAttempt(CheckOf(t1), true)
      decreases 1 - attempt
    {
      summary.AttemptStarted();
      if answers(attempt).Err? {
        return summary, GaveUp(BadTerminal(answers(attempt).error));
      }
      var response := answers(attempt).value;
      var check := TransformOutput(codec, terms, response.output);
      summary.Validated(check);
      if check.Ok? {
        return summary, Answered(response.(output := check.value.output), None);
      }
      if !RelayRetry(response.status, attempt) {
        return summary, GaveUp(BadTools(check.error));
      }
      summary.Regenerating();
      attempt := attempt + 1;
    }
  }

  function TryOnce(codec: Codec, terms: Terms, answer: Result<Response, Session.Failure>): Tried {
    match answer
    case Err(err) => Broken(BadTerminal(err))
    case Ok(response) => Judged(response, Transform(codec, terms, response.output))
  }

  function AnswerOnce(t: Tried): Answer {
    match t
    case Broken(stop) => GaveUp(stop)
    case Judged(_, Err(reason)) => GaveUp(BadTools(reason))
    case Judged(raw, Ok(done)) => Answered(raw.(output := done.output), None)
  }

  // ---------- what the loop guarantees ----------

  lemma NothingWithoutConnection(codec: Codec, terms: Terms, buffered: bool, trip: Trip)
    requires trip.connect.Some?
    ensures Try(codec, terms, buffered, trip) == Broken(NotConnected(trip.connect.value)) && FedBy(buffered, trip).sent == []
  {
  }

  /** A round trip whose machine has not committed has shown nothing; only such a trip is repeated, so
      everything a client sees comes from one attempt, the last one. */
  lemma RetriedShowsNothing(buffered: bool, trip: Trip)
    requires !FedBy(buffered, trip).n.committed
    ensures FedBy(buffered, trip).sent == []
  {
    Turn.FeedForwardsItsHistory(buffered, if trip.connect.Some? then [] else trip.upstream);
  }

  /** What is delivered in the end agrees with what was shown: the machine accepted the terminal response,
      the transformation left messages and reasoning in place, and the frames shown are those of the state
      the replay is filtered with. */
  lemma DeliveredAgrees(codec: Codec, terms: Terms, buffered: bool, trip: Trip)
    requires AnswerOf(buffered, trip, Try(codec, terms, buffered, trip)).Answered?
    requires Catalog.WellFormed(terms.callable)
    ensures var f, answer := FedBy(buffered, trip), AnswerOf(buffered, trip, Try(codec, terms, buffered, trip));
            && f.err.None? && trip.parsed.Ok? && FinalAccepted(f.n, trip.parsed.value)
            && Turn.KeepsStreamedItems(trip.parsed.value.output, answer.response.output)
            && (answer.keep.Some? <==> f.n.committed)
            && (answer.keep.Some? ==> Run(f.n.history).Some? && answer.keep.value == Run(f.n.history).value.st)
            && (answer.keep.None? ==> f.sent == [])
  {
    Turn.FeedForwardsItsHistory(buffered, if trip.connect.Some? then [] else trip.upstream);
    TransformedInPlace(codec, terms, trip.parsed.value.output);
    hide Transform, Run, Feed, FinalAccepted, Catalog.WellFormed, Turn.KeepsStreamedItems;
  }

  /** The round trip whose answer a request ends with. */
  function LastTrip(codec: Codec, terms: Terms, buffered: bool, trips: nat -> Trip): Trip {
    if Retries(buffered, trips(0), Try(codec, terms, buffered, trips(0))) then trips(1) else trips(0)
  }

  /** Over both attempts: what a client is shown are the frames of the last one alone, and an answer that is
      delivered is the last one's. */
  lemma ShownByLastTrip(codec: Codec, terms: Terms, buffered: bool, trips: nat -> Trip, timeLeft: bool)
    requires StreamAnswer(codec, terms, buffered, trips, timeLeft).Answered?
    ensures var last := LastTrip(codec, terms, buffered, trips);
            && StreamShown(codec, terms, buffered, trips, timeLeft) == FedBy(buffered, last).sent
            && StreamAnswer(codec, terms, buffered, trips, timeLeft) == AnswerOf(buffered, last, Try(codec, terms, buffered, last))
  {
    hide Try, FedBy, AnswerOf;
    var sent := FedBy(buffered, trips(0)).sent;
    assert sent + [] == sent;
    if Retries(buffered, trips(0), Try(codec, terms, buffered, trips(0))) {
      RetriedShowsNothing(buffered, trips(0));
      assert [] + FedBy(buffered, trips(1)).sent == FedBy(buffered, trips(1)).sent;
    }
  }

  /** What a round trip must have come to before its tools are checked: connected, read to its end without an
      error of the machine, a terminal response parsed and accepted. */
  predicate Complete(buffered: bool, trip: Trip) {
    && trip.connect.None? && Feed(buffered, trip.upstream).err.None? && trip.readErr.None? && trip.parsed.Ok?
    && FinalAccepted(Feed(buffered, trip.upstream).n, trip.parsed.value)
  }

  /** A round trip is repeated if and only if it was complete, its tools are at fault, its response was not cut
      short, and nothing had been committed. */
  lemma RetriedIff(codec: Codec, terms: Terms, buffered: bool, trip: Trip)
    ensures Retries(buffered, trip, Try(codec, terms, buffered, trip)) <==>
              && Complete(buffered, trip) && Transform(codec, terms, trip.parsed.value.output).Err?
              && trip.parsed.value.status != "incomplete" && !Feed(buffered, trip.upstream).n.committed
  {
    hide Feed, FinalAccepted, Transform;
  }

  /** An answer is delivered if and only if the trip was complete and its tools are in order: the parsed response
      with the transformed output, to be filtered exactly when the machine had committed. */
  lemma AnsweredIff(codec: Codec, terms: Terms, buffered: bool, trip: Trip)
    ensures var answer := AnswerOf(buffered, trip, Try(codec, terms, buffered, trip));
            && (answer.Answered? <==> Complete(buffered, trip) && Transform(codec, terms, trip.parsed.value.output).Ok?)
            && (answer.Answered? ==>
                  && answer.response == trip.parsed.value.(output := Transform(codec, terms, trip.parsed.value.output).value.output)
                  && (answer.keep.Some? <==> Feed(buffered, trip.upstream).n.committed))
  {
    Turn.FeedForwardsItsHistory(buffered, trip.upstream);
    hide Feed, FinalAccepted, Transform, Run;
  }

  /** Otherwise the first thing that went wrong is reported, in this order. */
  lemma StoppedBy(codec: Codec, terms: Terms, buffered: bool, trip: Trip)
    requires !Complete(buffered, trip)
    ensures AnswerOf(buffered, trip, Try(codec, terms, buffered, trip)) ==
              GaveUp(if trip.connect.Some? then NotConnected(trip.connect.value)
                     else if Feed(buffered, trip.upstream).err.Some? then StreamRejected(Feed(buffered, trip.upstream).err.value)
                     else if trip.readErr.Some? then ReadFailed(trip.readErr.value)
                     else if trip.parsed.Err? then BadTerminal(trip.parsed.error)
                     else NotAsStreamed)
  {
    hide Feed, FinalAccepted, Transform;
  }
}
