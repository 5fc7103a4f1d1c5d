/** Chunk-wise reading of an upstream body: `incrementalFeeder` of internal/basispoints/service.go and the
    guarded read loop of upstream.go, against decoding the whole body at once as
    `parseFinalStreamResponse` of response.go does. */
module Feeding {
  import opened Responses
  import opened Space
  import opened Sse

  // ---------- the feeder ----------

  datatype Feeder = Feeder(head: string, detected: bool, sse: bool, pending: Pending, buffer: string)

  const EMPTY := Feeder("", false, false, NOTHING, "")

  /** The first byte after the leading white space decides between a JSON object and an event stream. */
  predicate LooksLikeEvents(trimmed: string)
    requires trimmed != ""
  {
    trimmed[0] != '{'
  }

  function Decode(f: Feeder, data: string): (Feeder, seq<Message>) {
    var s := Scan(f.pending, f.buffer + data);
    (f.(pending := s.pending, buffer := s.rest), s.messages)
  }

  function FeedStep(f: Feeder, chunk: string): (Feeder, seq<Message>) {
    if !f.detected then
      var head := f.head + chunk;
      if TrimLeft(head) == "" then (f.(head := head), [])
      else
        var g := f.(head := "", detected := true, sse := LooksLikeEvents(TrimLeft(head)));
        if g.sse then Decode(g, head) else (g, [])
    else if f.sse then Decode(f, chunk)
    else (f, [])
  }

  class IncrementalFeeder {
    const decoder: SseDecoder
    var head: string
    var detected: bool
    var sse: bool

    constructor ()
      ensures Abs() == EMPTY && fresh(decoder)
    {
      decoder := new SseDecoder();
      head, detected, sse := "", false, false;
    }

    function Abs(): Feeder
      reads this, decoder
    {
      Feeder(head, detected, sse, decoder.Collected(), decoder.buffer)
    }

    /** The callback of the read loop; `accept` is how many messages the consumer still takes. */
    method Feed(chunk: string, accept: nat) returns (emitted: seq<Message>, ok: bool)
      modifies this, decoder
      ensures var (next, messages) := FeedStep(old(Abs()), chunk);
              && emitted == Cut(messages, accept)
              && ok == (|messages| <= accept)
              && (ok ==> Abs() == next)
    {
      hide Scan, TrimLeft;
      var data := chunk;
      if !detected {
        head := head + chunk;
        var trimmed := TrimLeft(head);
        if trimmed == "" {
          return [], true;
        }
        detected, sse := true, trimmed[0] != '{';
        data := head;
        head := "";
      }
      if !sse {
        return [], true;
      }
      emitted, ok := decoder.Feed(data, accept);
    }

    /** At the end of the body: completes a last event that no blank line follows. */
    method Flush(accept: nat) returns (emitted: seq<Message>, ok: bool)
      modifies decoder
      ensures var messages := FlushStep(old(Abs()));
              emitted == Cut(messages, accept) && ok == (|messages| <= accept)
    {
      hide Scan;
      if !sse {
        return [], true;
      }
      emitted, ok := decoder.Feed("\n\n", accept);
    }
  }

  function FlushStep(f: Feeder): seq<Message> {
    if f.sse then Decode(f, "\n\n").1 else []
  }

  // ---------- a whole body ----------

  function Concat(chunks: seq<string>): string {
    if chunks == [] then "" else Concat(chunks[..|chunks| - 1]) + chunks[|chunks| - 1]
  }

  function FeedAll(chunks: seq<string>): (Feeder, seq<Message>) {
    if chunks == [] then (EMPTY, [])
    else
      var (f, before) := FeedAll(chunks[..|chunks| - 1]);
      var (g, more) := FeedStep(f, chunks[|chunks| - 1]);
      (g, before + more)
  }

  /** Everything the consumer is offered from a body read in these chunks. */
  function Offered(chunks: seq<string>): seq<Message> {
    FeedAll(chunks).1 + FlushStep(FeedAll(chunks).0)
  }

  /** Everything `parseFinalStreamResponse` decodes from an event-stream body. */
  function WholeBody(raw: string): seq<Message> {
    Scan(NOTHING, raw + "\n\n").messages
  }

  /** `t` is cut off inside a multi-byte white-space character. */
  predicate InsideBlank(t: string) {
    || t == [0xC2 as char]
    || t == [0xE1 as char] || t == [0xE1 as char, 0x9A as char]
    || t == [0xE2 as char] || t == [0xE2 as char, 0x80 as char] || t == [0xE2 as char, 0x81 as char]
    || t == [0xE3 as char] || t == [0xE3 as char, 0x80 as char]
  }

  /** More bytes do not change what leading white space is, unless the text was cut off inside it. */
  lemma {:induction false} TrimLeftExtends(s: string, more: string)
    requires TrimLeft(s) != "" && !InsideBlank(TrimLeft(s))
    ensures TrimLeft(s + more) == TrimLeft(s) + more
    decreases |s|
  {
    var n := BlankAt(s);
    if n == 0 {
      NotBlankStays(s, more);
    } else {
      BlankStays(s, more);
      assert (s + more)[n..] == s[n..] + more;
      TrimLeftExtends(s[n..], more);
    }
  }

  lemma NotBlankStays(s: string, more: string)
    requires s != "" && BlankAt(s) == 0 && !InsideBlank(s)
    ensures BlankAt(s + more) == 0
  {
    var t := s + more;
    assert t[0] == s[0];
    if |s| == 1 {
      assert s == [s[0]];
    } else {
      assert t[1] == s[1];
      if |s| == 2 {
        assert s == [s[0], s[1]];
      } else {
        assert t[2] == s[2];
      }
    }
  }

  /** What the feeder knows after any chunks: nothing but blanks, or a JSON object, or the decoded events. */
  ghost predicate Tracked(f: Feeder, messages: seq<Message>, raw: string) {
    if !f.detected then f == EMPTY.(head := raw) && TrimLeft(raw) == "" && messages == []
    else if f.sse then Scan(NOTHING, raw) == Scanned(messages, f.pending, f.buffer)
    else TrimLeft(raw) != "" && !LooksLikeEvents(TrimLeft(raw)) && messages == []
  }

  lemma {:induction false} FeederTracks(chunks: seq<string>)
    ensures Tracked(FeedAll(chunks).0, FeedAll(chunks).1, Concat(chunks))
  {
    if chunks != [] {
      hide Scan, TrimLeft, Tracked, FeedStep;
      FeederTracks(chunks[..|chunks| - 1]);
      var (f, before) := FeedAll(chunks[..|chunks| - 1]);
      StepTracks(f, before, Concat(chunks[..|chunks| - 1]), chunks[|chunks| - 1]);
    }
  }

  lemma StepTracks(f: Feeder, messages: seq<Message>, raw: string, chunk: string)
    requires Tracked(f, messages, raw)
    ensures var (g, more) := FeedStep(f, chunk); Tracked(g, messages + more, raw + chunk)
  {
    hide Scan, TrimLeft;
    assert [] + Scan(NOTHING, raw + chunk).messages == Scan(NOTHING, raw + chunk).messages;
    assert "" + (raw + chunk) == raw + chunk;
    if f.detected && f.sse {
      ScanAppend(NOTHING, raw, chunk);
    } else if f.detected {
      TrimLeftExtends(raw, chunk);
    }
  }

  /** Chunking invariance: an event-stream body gives the consumer the same events however it is cut. */
  lemma ChunkingInvariance(chunks: seq<string>)
    requires TrimLeft(Concat(chunks)) != "" && LooksLikeEvents(TrimLeft(Concat(chunks)))
    ensures Offered(chunks) == WholeBody(Concat(chunks))
  {
    FeederTracks(chunks);
    ScanAppend(NOTHING, Concat(chunks), "\n\n");
    hide Scan, TrimLeft;
  }

  /** A consumer that fails stops the reading; it has seen a beginning of those events, cut the same way. */
  function Pump(f: Feeder, chunks: seq<string>, accept: nat): (seq<Message>, bool)
    decreases |chunks|
  {
    var (g, messages) := if chunks == [] then (f, FlushStep(f)) else FeedStep(f, chunks[0]);
    if |messages| > accept then (Cut(messages, accept), false)
    else if chunks == [] then (messages, true)
    else
      var (more, ok) := Pump(g, chunks[1..], accept - |messages|);
      (messages + more, ok)
  }

  function OfferedFrom(f: Feeder, chunks: seq<string>): seq<Message>
    decreases |chunks|
  {
    if chunks == [] then FlushStep(f)
    else FeedStep(f, chunks[0]).1 + OfferedFrom(FeedStep(f, chunks[0]).0, chunks[1..])
  }

  lemma {:induction false} PumpCuts(f: Feeder, chunks: seq<string>, accept: nat)
    ensures Pump(f, chunks, accept) == (Cut(OfferedFrom(f, chunks), accept), |OfferedFrom(f, chunks)| <= accept)
    decreases |chunks|
  {
    hide FeedStep, FlushStep;
    if chunks != [] {
      var (g, messages) := FeedStep(f, chunks[0]);
      var rest := OfferedFrom(g, chunks[1..]);
      if |messages| <= accept {
        PumpCuts(g, chunks[1..], accept - |messages|);
        assert |messages + rest| > accept ==> (messages + rest)[..accept + 1] == messages + rest[..accept - |messages| + 1];
      } else {
        assert (messages + rest)[..accept + 1] == messages[..accept + 1];
      }
    }
  }

  /** Feeding chunk by chunk from the start is the same fold. */
  lemma {:induction false} OfferedFromStart(done: seq<string>, chunks: seq<string>)
    ensures Offered(done + chunks) == FeedAll(done).1 + OfferedFrom(FeedAll(done).0, chunks)
    decreases |chunks|
  {
    hide FeedStep, FlushStep;
    if chunks == [] {
      assert done + [] == done;
    } else {
      var longer := done + [chunks[0]];
      assert longer[..|longer| - 1] == done;
      assert done + chunks == longer + chunks[1..];
      OfferedFromStart(longer, chunks[1..]);
    }
  }

  /** Up to the first consumer error the events are those of the whole body. */
  lemma FirstErrorInvariance(chunks: seq<string>, accept: nat)
    requires TrimLeft(Concat(chunks)) != "" && LooksLikeEvents(TrimLeft(Concat(chunks)))
    ensures Pump(EMPTY, chunks, accept) == (Cut(WholeBody(Concat(chunks)), accept), |WholeBody(Concat(chunks))| <= accept)
  {
    hide Pump, OfferedFrom, WholeBody, Cut, Offered, TrimLeft, Concat;
    ChunkingInvariance(chunks);
    OfferedFromStart([], chunks);
    assert [] + chunks == chunks;
    assert [] + OfferedFrom(EMPTY, chunks) == OfferedFrom(EMPTY, chunks);
    PumpCuts(EMPTY, chunks, accept);
  }

  // ---------- bodies without events ----------

  /** Some line begins with the name of the data field. */
  ghost predicate HasDataLine(text: string) {
    exists k :: LineStartsAt(text, k) && "data:" <= text[k..]
  }

  predicate LineStartsAt(text: string, k: int) {
    0 <= k <= |text| && (k == 0 || text[k - 1] == '\n')
  }

  /** The lines of a text are its first line and those of the rest. */
  lemma DataLineSplits(line: string, rest: string)
    requires '\n' !in line
    ensures HasDataLine(line + "\n" + rest) <==> "data:" <= StripReturn(line) || HasDataLine(rest)
  {
    var text, n := line + "\n" + rest, |line| + 1;
    assert text[n..] == rest && text[..n] == line + "\n";
    if "data:" <= StripReturn(line) {
      assert text[0..] == text && LineStartsAt(text, 0) && text[..5] == StripReturn(line)[..5];
    } else if k :| LineStartsAt(rest, k) && "data:" <= rest[k..] {
      assert text[n + k..] == rest[k..];
      assert k > 0 ==> text[n + k - 1] == rest[k - 1];
      assert LineStartsAt(text, n + k);
    }
    if j :| LineStartsAt(text, j) && "data:" <= text[j..] {
      if j == 0 {
        DataInFirstLine(line, rest);
      } else {
        assert forall m | 0 <= m < |line| :: text[m] == line[m] && line[m] in line;
        assert j >= n;
        assert text[j..] == rest[j - n..];
        assert j > n ==> text[j - 1] == rest[j - n - 1];
        assert LineStartsAt(rest, j - n);
      }
    }
  }

  lemma DataInFirstLine(line: string, rest: string)
    requires '\n' !in line && "data:" <= line + "\n" + rest
    ensures "data:" <= StripReturn(line)
  {
    var text := line + "\n" + rest;
    assert text[..5] == "data:";
    assert forall k | 0 <= k < 5 :: text[k] == "data:"[k];
    assert text[|line|] == '\n';
    assert line[..5] == text[..5];
    assert line[4] == ':';
  }

  /** A text offers an event if and only if data has been collected or one of its lines has some. */
  lemma {:induction false} EventsIffData(p: Pending, text: string)
    ensures Scan(p, text + "\n\n").messages != [] <==> p.data != [] || HasDataLine(text + "\n\n")
    decreases |text|
  {
    hide Scan, LineEnd, HasDataLine, Dispatch, StripReturn;
    var n := LineEnd(text);
    if n == |text| {
      LastLine(p, text);
    } else {
      var line, rest := text[..n], text[n + 1..];
      assert text == line + "\n" + rest && text + "\n\n" == line + "\n" + (rest + "\n\n");
      DataLineSplits(line, rest + "\n\n");
      ScanFirst(p, line, rest + "\n\n");
      LineIsTaken(p, StripReturn(line));
      if StripReturn(line) == "" {
        EventsIffData(NOTHING, rest);
      } else {
        EventsIffData(TakeLine(p, StripReturn(line)), rest);
      }
    }
  }

  lemma LineIsTaken(p: Pending, line: string)
    ensures TakeLine(p, line).data != [] <==> p.data != [] || "data:" <= line
    ensures Dispatch(p) != [] <==> p.data != []
    ensures line == "" ==> !("data:" <= line)
  {
    hide Join, StripSpace, Space.TrimSpace;
  }

  lemma LastLine(p: Pending, line: string)
    requires '\n' !in line
    ensures Scan(p, line + "\n\n").messages != [] <==> p.data != [] || HasDataLine(line + "\n\n")
  {
    hide Scan, LineEnd, HasDataLine, Dispatch, StripReturn;
    assert line + "\n\n" == line + "\n" + "\n" && "\n" == "" + "\n" + "";
    ScanFirst(p, line, "\n");
    DataLineSplits(line, "\n");
    DataLineSplits("", "");
    NoData();
    LineIsTaken(p, StripReturn(line));
    LineIsTaken(TakeLine(p, StripReturn(line)), StripReturn(""));
    ScanFirst(NOTHING, "", "");
    ScanFirst(TakeLine(p, StripReturn(line)), "", "");
    ScanPartial(NOTHING, "");
  }

  lemma NoData()
    ensures !HasDataLine("") && StripReturn("") == "" && Dispatch(NOTHING) == []
  {
  }

  lemma EndedDataLine(text: string)
    ensures HasDataLine(text + "\n\n") <==> HasDataLine(text)
  {
    var ended := text + "\n\n";
    if k :| LineStartsAt(text, k) && "data:" <= text[k..] {
      assert text[k..] + "\n\n" == ended[k..];
      assert LineStartsAt(ended, k);
    }
    if k :| LineStartsAt(ended, k) && "data:" <= ended[k..] {
      assert forall m | 0 <= m < 5 :: ended[k + m] == "data:"[m];
      DataFits(text, k);
      assert text[k..] + "\n\n" == ended[k..];
      assert LineStartsAt(text, k);
    }
  }

  lemma DataFits(text: string, k: nat)
    requires k + 5 <= |text| + 2 && forall m | 0 <= m < 5 :: (text + "\n\n")[k + m] == "data:"[m]
    ensures k + 5 <= |text|
  {
    assert forall m | |text| <= m < |text| + 2 :: (text + "\n\n")[m] == '\n';
    var m := 4;
    assert (text + "\n\n")[k + m] == "data:"[m];
    assert "data:"[4] == ':';
    assert k + 4 < |text|;
  }

  /** A body offers an event if and only if it was taken for an event stream and one of its lines begins with
      the name of the data field. So a JSON body that is mistaken for events does no harm unless it has such
      a line, and no JSON text has: a line break may not stand inside a string. */
  lemma OffersIffData(chunks: seq<string>)
    ensures Offered(chunks) != [] <==> FeedAll(chunks).0.sse && HasDataLine(Concat(chunks))
  {
    hide Scan, HasDataLine, Space.TrimLeft;
    FeederTracks(chunks);
    EventsIffData(NOTHING, Concat(chunks));
    EndedDataLine(Concat(chunks));
    ScanAppend(NOTHING, Concat(chunks), "\n\n");
  }

  // ---------- JSON bodies ----------

  /** A JSON body is mistaken for an event stream exactly when a chunk ends inside a multi-byte
      white-space character in front of it. */
  lemma JsonBodyDetected(chunks: seq<string>)
    requires TrimLeft(Concat(chunks)) != "" && !LooksLikeEvents(TrimLeft(Concat(chunks)))
    ensures FeedAll(chunks).0.sse <==> exists n | 0 <= n <= |chunks| :: InsideBlank(TrimLeft(Concat(chunks[..n])))
    ensures !FeedAll(chunks).0.sse ==> Offered(chunks) == []
  {
    FeederTracks(chunks);
    assert chunks[..|chunks|] == chunks;
    hide Scan, TrimLeft, InsideBlank, FeedAll, Concat, LooksLikeEvents;
    if n :| 0 <= n <= |chunks| && InsideBlank(TrimLeft(Concat(chunks[..n]))) {
      WrongDecision(chunks, n);
    } else {
      NoWrongDecision(chunks, |chunks|);
    }
  }

  lemma WrongDecision(chunks: seq<string>, n: nat)
    requires n <= |chunks| && InsideBlank(TrimLeft(Concat(chunks[..n])))
    ensures FeedAll(chunks).0.sse
  {
    FeederTracks(chunks[..n]);
    hide Scan, TrimLeft, FeedAll, Concat;
    DecisionStays(chunks, n);
  }

  lemma {:induction false} DecisionStays(chunks: seq<string>, n: nat)
    requires n <= |chunks| && FeedAll(chunks[..n]).0.detected
    ensures FeedAll(chunks).0.detected && FeedAll(chunks).0.sse == FeedAll(chunks[..n]).0.sse
    decreases |chunks| - n
  {
    hide Scan, TrimLeft;
    if n == |chunks| {
      assert chunks[..n] == chunks;
    } else {
      assert chunks[..n + 1][..n] == chunks[..n];
      DecisionStays(chunks, n + 1);
    }
  }

  lemma {:induction false} ConcatSplit(chunks: seq<string>, n: nat) returns (rest: string)
    requires n <= |chunks|
    ensures Concat(chunks) == Concat(chunks[..n]) + rest
    decreases |chunks| - n
  {
    if n == |chunks| {
      assert chunks[..n] == chunks;
      rest := "";
    } else {
      assert chunks[..n + 1][..n] == chunks[..n];
      var more := ConcatSplit(chunks, n + 1);
      rest := chunks[n] + more;
    }
  }

  lemma {:induction false} NoWrongDecision(chunks: seq<string>, n: nat)
    requires n <= |chunks|
    requires TrimLeft(Concat(chunks)) != "" && !LooksLikeEvents(TrimLeft(Concat(chunks)))
    requires forall m | 0 <= m <= |chunks| :: !InsideBlank(TrimLeft(Concat(chunks[..m])))
    ensures !FeedAll(chunks[..n]).0.sse
  {
    hide Scan, TrimLeft, InsideBlank;
    if n > 0 {
      assert chunks[..n][..n - 1] == chunks[..n - 1];
      NoWrongDecision(chunks, n - 1);
      FeederTracks(chunks[..n - 1]);
      var head := Concat(chunks[..n]);
      if TrimLeft(head) != "" {
        var rest := ConcatSplit(chunks, n);
        TrimLeftExtends(head, rest);
      }
    }
  }

  /** The smallest such body: an object behind a no-break space whose two bytes arrive apart. */
  lemma SplitBlankMisleads()
    ensures var chunks := [[0xC2 as char], [0xA0 as char, '{', '}']];
            FeedAll(chunks).0.sse && TrimLeft(Concat(chunks)) == "{}"
  {
    hide Scan, FeedStep;
    var chunks := [[0xC2 as char], [0xA0 as char, '{', '}']];
    assert chunks[..1] == [chunks[0]] && [chunks[0]][..0] == [];
    assert Concat([chunks[0]]) == [0xC2 as char];
    assert Concat(chunks) == [0xC2 as char, 0xA0 as char, '{', '}'];
    assert Concat(chunks)[2..] == "{}";
    FeederTracks([chunks[0]]);
    DecisionStays(chunks, 1);
  }

  // ---------- the guarded read loop ----------

  /** One turn of the read loop as the environment answers it: whether the guard has aborted before and
      after the read, what the read returned, what the chunk callback said, and whether the guard has
      aborted while the callback ran. */
  datatype Read = Read(abortedBefore: bool, abortedAfter: bool, failed: bool, payload: string, done: bool,
                       callback: Callback, abortedMeanwhile: bool)

  datatype Callback = Fine | ClientGone | Rejected

  datatype ReadError = Aborted | Transport | TooLarge | Disconnected | CallbackFailed | Unfinished

  /** Why a read ends the loop with an error after `total` bytes; None when it does not. */
  function ReadFailure(r: Read, total: nat, limit: nat): Option<ReadError> {
    if r.abortedBefore || r.abortedAfter then Some(Aborted)
    else if r.failed then Some(Transport)
    else if r.payload == "" then None
    else if total + |r.payload| > limit then Some(TooLarge)
    else if r.callback.ClientGone? then Some(Disconnected)
    else if r.abortedMeanwhile then Some(Aborted)
    else if r.callback.Rejected? then Some(CallbackFailed)
    else None
  }

  /** Whether a read gets as far as the callback: nothing aborted or failed, and the chunk fits the limit. */
  predicate ReachesCallback(r: Read, total: nat, limit: nat) {
    !r.abortedBefore && !r.abortedAfter && !r.failed && r.payload != "" && total + |r.payload| <= limit
  }

  /** Why a read fails: the guard had aborted, the transport failed, the bytes exceed the limit, the client has
      gone, the guard aborted while the callback ran, or the callback itself failed; the earlier in this order
      the stronger. */
  lemma FailsFor(r: Read, total: nat, limit: nat)
    ensures var f, chunk := ReadFailure(r, total, limit), r.payload != "";
            var quiet := !r.abortedBefore && !r.abortedAfter;
            && (f == Some(Transport) <==> quiet && r.failed)
            && (f == Some(TooLarge) <==> quiet && !r.failed && chunk && total + |r.payload| > limit)
            && (f == Some(Disconnected) <==> ReachesCallback(r, total, limit) && r.callback.ClientGone?)
            && (f == Some(CallbackFailed) <==> ReachesCallback(r, total, limit) && r.callback.Rejected? && !r.abortedMeanwhile)
            && (f == Some(Aborted) <==>
                  !quiet || (ReachesCallback(r, total, limit) && !r.callback.ClientGone? && r.abortedMeanwhile))
            && (f == None <==>
                  quiet && !r.failed && (chunk ==> total + |r.payload| <= limit && r.callback.Fine? && !r.abortedMeanwhile))
  {
  }

  function Payloads(script: seq<Read>): seq<string> {
    if script == [] then []
    else Payloads(script[..|script| - 1]) + NonEmpty(script[|script| - 1].payload)
  }

  function NonEmpty(payload: string): seq<string> {
    if payload == "" then [] else [payload]
  }

  /** The bytes accepted from the first `n` reads. */
  function Accepted(script: seq<Read>, n: nat): string
    requires n <= |script|
  {
    Concat(Payloads(script[..n]))
  }

  lemma AcceptedNext(script: seq<Read>, n: nat)
    requires n < |script|
    ensures Payloads(script[..n + 1]) == Payloads(script[..n]) + NonEmpty(script[n].payload)
    ensures Accepted(script, n + 1) == Accepted(script, n) + script[n].payload
  {
    var shorter := Payloads(script[..n]);
    assert script[..n + 1][..n] == script[..n];
    if script[n].payload != "" {
      assert (shorter + [script[n].payload])[..|shorter|] == shorter;
    } else {
      assert shorter + [] == shorter;
      assert Concat(shorter) + "" == Concat(shorter);
    }
  }

  /** Read `k` neither fails nor ends the body. */
  predicate Continues(script: seq<Read>, k: nat, limit: nat)
    requires k < |script|
  {
    ReadFailure(script[k], |Accepted(script, k)|, limit) == None && !script[k].done
  }

  /** `readGuardedInto`: the callback gets every non-empty chunk once, in order, and the result is their
      concatenation; the accepted bytes never exceed the limit; the first failing read decides the error,
      its chunk having reached the callback exactly if it got past the limit check; without one the loop
      ends at the first read that reports the end of the body. `n` is the read at which it stopped. */
  method ReadGuardedInto(script: seq<Read>, limit: nat)
    returns (body: Result<string, ReadError>, delivered: seq<string>, n: nat)
    ensures n <= |script| && (n == |script| <==> body == Err(Unfinished))
    ensures forall k | 0 <= k < n :: Continues(script, k, limit)
    ensures body.Ok? ==>
              && script[n].done && ReadFailure(script[n], |Accepted(script, n)|, limit) == None
              && delivered == Payloads(script[..n + 1]) && body.value == Accepted(script, n + 1) && |body.value| <= limit
    ensures body.Err? && n < |script| ==>
              && ReadFailure(script[n], |Accepted(script, n)|, limit) == Some(body.error)
              && delivered == Payloads(script[..n])
                   + (if ReachesCallback(script[n], |Accepted(script, n)|, limit) then [script[n].payload] else [])
    ensures |Accepted(script, n)| <= limit
  {
    hide Concat, Payloads, ReadFailure;
    EmptyScript(script);
    var buffer := "";
    delivered, n := [], 0;
    while n < |script|
      invariant n <= |script|
      invariant delivered == Payloads(script[..n]) && buffer == Accepted(script, n) && |buffer| <= limit
      invariant forall k | 0 <= k < n :: Continues(script, k, limit)
    {
      AcceptedNext(script, n);
      var failure, offered := TakeChunk(script[n], |buffer|, limit);
      if offered {
        delivered := delivered + [script[n].payload];
      }
      if failure.Some? {
        assert Payloads(script[..n]) + [] == Payloads(script[..n]);
        return Err(failure.value), delivered, n;
      }
      buffer := buffer + script[n].payload;
      if script[n].done {
        return Ok(buffer), delivered, n;
      }
      n := n + 1;
    }
    body := Err(Unfinished);
  }

  lemma EmptyScript(script: seq<Read>)
    ensures Payloads(script[..0]) == [] && Accepted(script, 0) == ""
  {
  }

  /** The checks of one read, in the program's order; `offered` tells whether the callback was called. */
  method TakeChunk(r: Read, total: nat, limit: nat) returns (failure: Option<ReadError>, offered: bool)
    requires total <= limit
    ensures failure == ReadFailure(r, total, limit) && failure != Some(Unfinished)
    ensures offered <==> ReachesCallback(r, total, limit)
    ensures failure.None? ==> offered == (r.payload != "") && total + |r.payload| <= limit
  {
    if r.abortedBefore {
      return Some(Aborted), false;
    }
    if r.abortedAfter {
      return Some(Aborted), false;
    }
    if r.failed {
      return Some(Transport), false;
    }
    if r.payload == "" {
      return None, false;
    }
    if total + |r.payload| > limit {
      return Some(TooLarge), false;
    }
    if r.callback.ClientGone? {
      return Some(Disconnected), true;
    }
    if r.abortedMeanwhile {
      return Some(Aborted), true;
    }
    if r.callback.Rejected? {
      return Some(CallbackFailed), true;
    }
    return None, true;
  }
}
