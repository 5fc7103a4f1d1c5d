/** From the bytes that are read to the events the host accepts: the main theorems for bodies that arrive in
    any chunks, their events classified and their terminal response parsed. */
module Wire {
  import opened Responses
  import opened Delivery
  import opened Client
  import opened Session
  import opened Turn
  import opened Snapshots
  import opened Space
  import opened Sse
  import opened Relay
  import opened Batch
  import opened Reading
  import opened Parsing
  import opened Attempts
  import Catalog
  import Feeding
  import EndToEnd

  /** A body of events: what is left of it without leading white space does not begin like an object. */
  predicate EventBody(raw: string) {
    TrimLeft(raw) != "" && Feeding.LooksLikeEvents(TrimLeft(raw))
  }

  /** The machine behind the feeder does not depend on where the body was cut. */
  lemma SameFeed(codec: Codec, buffered: bool, chunks: seq<string>)
    requires EventBody(Feeding.Concat(chunks))
    ensures Feed(buffered, Classified(codec, Feeding.Offered(chunks)))
            == Feed(buffered, Classified(codec, Feeding.WholeBody(Feeding.Concat(chunks))))
  {
    hide Feed, Classified, Feeding.WholeBody, Feeding.Offered, TrimLeft;
    Feeding.ChunkingInvariance(chunks);
  }

  /** Event `j` is the only terminal event, nothing but end markers follow it, and it carries the response. */
  ghost predicate Carries(codec: Codec, messages: seq<Message>, j: int, response: Response) {
    && 0 <= j < |messages|
    && HoldsTerminal(codec, messages[j]) && ReadTerminal(codec, messages[j]) == Ok(response)
    && (forall k | 0 <= k < j :: !HoldsTerminal(codec, messages[k]))
    && (forall k | j < k < |messages| :: IsDone(messages[k]))
  }

  /** An event body that the machine has accepted, read in any chunks, is parsed to a response if and only if
      it has a terminal event that carries one. */
  lemma ParsedFromChunks(codec: Codec, buffered: bool, chunks: seq<string>, response: Response)
    requires EventBody(Feeding.Concat(chunks)) && Feed(buffered, Classified(codec, Feeding.Offered(chunks))).err.None?
    ensures Parsed(codec, Feeding.Concat(chunks)) == Ok(response) <==>
              exists j :: Carries(codec, Feeding.Offered(chunks), j, response)
  {
    hide Feed, ReadTerminal, ParseAll, Feeding.WholeBody, Feeding.Offered, TrimLeft, TrimSpace, Feeding.Concat, Classify, IsDone, OneAtMost;
    var raw, messages := Feeding.Concat(chunks), Feeding.Offered(chunks);
    TrimSpaceStart(raw);
    Feeding.ChunkingInvariance(chunks);
    ParsedAfterFeed(codec, buffered, messages);
    if Parsed(codec, raw) == Ok(response) {
      assert exists m :: m in messages && HoldsTerminal(codec, m);
      var m :| m in messages && HoldsTerminal(codec, m);
      var j :| 0 <= j < |messages| && messages[j] == m;
      OnlyMarkersFollow(codec, buffered, messages, j);
      assert Carries(codec, messages, j, response);
    }
  }

  lemma OnlyMarkersFollow(codec: Codec, buffered: bool, messages: seq<Message>, j: nat)
    requires Feed(buffered, Classified(codec, messages)).err.None? && j < |messages| && HoldsTerminal(codec, messages[j])
    ensures forall k | 0 <= k < j :: !HoldsTerminal(codec, messages[k])
    ensures forall k | j < k < |messages| :: IsDone(messages[k])
  {
    hide Feed, IsDone, Classify;
    var us := Classified(codec, messages);
    FedInOrder(buffered, us);
    forall k | 0 <= k < j ensures !HoldsTerminal(codec, messages[k]) {
      assert us[j].Terminal? && us[k] == Classify(codec, messages[k]);
    }
    forall k | j < k < |messages| ensures IsDone(messages[k]) {
      assert us[j].Terminal? && us[k].DoneMarker?;
      MarkerIsDone(codec, messages[k]);
    }
  }

  lemma MarkerIsDone(codec: Codec, m: Message)
    requires Classify(codec, m).DoneMarker?
    ensures IsDone(m)
  {
    hide IsDone, KindOf, ReadItemEvent, ReadPartEvent;
    if !IsDone(m) && codec.parse(m.data).Ok? {
      EventClass(codec, KindOf(codec.parse(m.data).value, m.event), codec.parse(m.data).value);
    }
  }

  /** The main theorem from the wire on: a body of events that commits, read in any chunks, its terminal
      response parsed from it, accepted and transformed, its frames handed to a session that is then finished.
      What the client holds of each output index is the one complete delivery that decoding the whole body
      yields, and the response is that of the body's only terminal event. */
  lemma ChunksDelivered(codec: Codec, chunks: seq<string>, raw: Response, sent: Response,
      id: string, heartbeat: bool, ops: seq<Op>, late: bool, i: int)
    requires EventBody(Feeding.Concat(chunks)) && Parsed(codec, Feeding.Concat(chunks)) == Ok(raw)
    requires var f := Feed(false, Classified(codec, Feeding.Offered(chunks)));
             && f.err.None? && f.n.committed && FinalAccepted(f.n, raw) && EndToEnd.Offered(ops) == f.sent
    requires KeepsStreamedItems(raw.output, sent.output) && !Silent(RunOps(Initial(id, heartbeat), ops))
    ensures exists j :: Carries(codec, Feeding.WholeBody(Feeding.Concat(chunks)), j, raw)
    ensures var f := Feed(false, Classified(codec, Feeding.WholeBody(Feeding.Concat(chunks))));
            Run(f.n.history).Some?
            && var st := Run(f.n.history).value.st;
            var v := Next(RunOps(Initial(id, heartbeat), ops), Finish(sent, Some(st), true, false, true, false, late));
            && StreamOk(v) && v.ended
            && HeldRun(i, BLANK, Bare(v.accepted)) == Some(FinalHeld(f.sent, st, sent, i))
  {
    hide Feed, FinalAccepted, KeepsStreamedItems, Run, RunOps, StreamOk, FinalHeld, HeldRun, Bare, Next, Silent, Classified,
      Feeding.WholeBody, Feeding.Offered, Feeding.Concat, EndToEnd.Offered, ClientRun, TrimLeft, Parsed, Carries;
    ParsedFromChunks(codec, false, chunks, raw);
    Feeding.ChunkingInvariance(chunks);
    SameFeed(codec, false, chunks);
    EndToEnd.OneDelivery(Classified(codec, Feeding.Offered(chunks)), raw, sent, id, heartbeat, ops, late, i);
  }

  // ---------- a whole request ----------

  /** What the upstream answers in one round trip: a failed connection, or the chunks of a body and how the
      reading of it ended. */
  datatype Reply = Reply(connect: Option<Failure>, chunks: seq<string>, readErr: Option<Failure>)

  /** The round trip as the attempt loop sees it. A last event without a blank line is only completed when the
      body has been read to its end. */
  function TripOf(codec: Codec, reply: Reply): Trip {
    var parsed := Parsed(codec, Feeding.Concat(reply.chunks));
    Trip(reply.connect,
         Classified(codec, if reply.readErr.Some? then Feeding.FeedAll(reply.chunks).1 else Feeding.Offered(reply.chunks)),
         reply.readErr,
         match parsed case Ok(response) => Ok(response) case Err(err) => Err(FailureFor(err)))
  }

  function Trips(codec: Codec, replies: nat -> Reply): nat -> Trip {
    (n: nat) => TripOf(codec, replies(n))
  }

  /** The response a delivered answer was made from. */
  ghost predicate MadeFrom(codec: Codec, reply: Reply, raw: Response, answer: Answer)
    requires answer.Answered?
  {
    && Parsed(codec, Feeding.Concat(reply.chunks)) == Ok(raw)
    && answer.response == raw.(output := answer.response.output)
    && KeepsStreamedItems(raw.output, answer.response.output)
    && (EventBody(Feeding.Concat(reply.chunks)) ==> exists j :: Carries(codec, Feeding.Offered(reply.chunks), j, raw))
  }

  /** A whole request from its bodies on: whatever one or two replies bring, in any chunks, all on the same
      session, an answer that is delivered after frames have been shown reaches the client as one delivery of
      every item; it was made from the response that the last body's only terminal event carries. */
  lemma BodiesDelivered(codec: Codec, source: Catalog.Source, choice: Catalog.Choice, parallel: Option<bool>,
      replies: nat -> Reply, timeLeft: bool, id: string, heartbeat: bool, ops: seq<Op>, late: bool, i: int)
    requires var terms, trips := TermsOf(source, choice, parallel), Trips(codec, replies);
             && StreamAnswer(codec, terms, false, trips, timeLeft).Answered?
             && StreamAnswer(codec, terms, false, trips, timeLeft).keep.Some?
             && EndToEnd.Offered(ops) == StreamShown(codec, terms, false, trips, timeLeft)
    requires !Silent(RunOps(Initial(id, heartbeat), ops))
    ensures var terms, trips := TermsOf(source, choice, parallel), Trips(codec, replies);
            var answer := StreamAnswer(codec, terms, false, trips, timeLeft);
            var v := Next(RunOps(Initial(id, heartbeat), ops), Finish(answer.response, answer.keep, true, false, true, false, late));
            && StreamOk(v) && v.ended
            && HeldRun(i, BLANK, Bare(v.accepted))
               == Some(FinalHeld(StreamShown(codec, terms, false, trips, timeLeft), answer.keep.value, answer.response, i))
            && exists n, raw :: 0 <= n <= 1 && MadeFrom(codec, replies(n), raw, answer)
  {
    hide RunOps, StreamOk, FinalHeld, HeldRun, Bare, Next, Silent, TermsOf, StreamAnswer, StreamShown, MadeFrom, TripOf, EndToEnd.Offered;
    EndToEnd.RequestDelivered(codec, source, choice, parallel, Trips(codec, replies), timeLeft, id, heartbeat, ops, late, i);
    TermsAreFormed(source, choice, parallel);
    AnswerFromBody(codec, TermsOf(source, choice, parallel), false, replies, timeLeft);
  }

  /** In either mode, a delivered answer was made from the response of the last body. */
  lemma AnswerFromBody(codec: Codec, terms: Terms, buffered: bool, replies: nat -> Reply, timeLeft: bool)
    requires StreamAnswer(codec, terms, buffered, Trips(codec, replies), timeLeft).Answered? && Catalog.WellFormed(terms.callable)
    ensures exists n, raw :: 0 <= n <= 1 && MadeFrom(codec, replies(n), raw, StreamAnswer(codec, terms, buffered, Trips(codec, replies), timeLeft))
  {
    hide Try, AnswerOf, StreamAnswer, TripOf, MadeFrom, Retries, Catalog.WellFormed;
    ShownByLastTrip(codec, terms, buffered, Trips(codec, replies), timeLeft);
    var n := if LastTrip(codec, terms, buffered, Trips(codec, replies)) == TripOf(codec, replies(0)) then 0 else 1;
    TripAnswered(codec, terms, buffered, replies(n));
  }

  lemma TripAnswered(codec: Codec, terms: Terms, buffered: bool, reply: Reply)
    requires var trip := TripOf(codec, reply); AnswerOf(buffered, trip, Try(codec, terms, buffered, trip)).Answered?
    requires Catalog.WellFormed(terms.callable)
    ensures var trip := TripOf(codec, reply);
            exists raw :: MadeFrom(codec, reply, raw, AnswerOf(buffered, trip, Try(codec, terms, buffered, trip)))
  {
    hide Feed, FinalAccepted, KeepsStreamedItems, Transform, Classified, Parsed, Feeding.Offered, Feeding.Concat, EventBody, Carries,
      Catalog.WellFormed, Run;
    var trip := TripOf(codec, reply);
    DeliveredAgrees(codec, terms, buffered, trip);
    var raw := trip.parsed.value;
    if EventBody(Feeding.Concat(reply.chunks)) {
      ParsedFromChunks(codec, buffered, reply.chunks, raw);
    }
    assert MadeFrom(codec, reply, raw, AnswerOf(buffered, trip, Try(codec, terms, buffered, trip)));
  }
}
