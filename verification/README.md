# Incremental delivery, verified

A Dafny model of the `oai-basispoints` plugin (Go, `internal/basispoints`). The plugin reads an upstream
Responses event stream, forwards message text and reasoning summaries while they arrive, checks and converts
the tool calls at the end, and replays whatever the client has not seen yet. The model covers that path from
the bytes that are read to the events the host accepts, the races around it, and the tool relay.

The main theorem is `EndToEnd.OneDelivery` (for whole requests of one or two round trips:
`EndToEnd.RequestDelivered`; the same from the bytes on, with events classified and terminal responses parsed from
the bodies: `Wire.ChunksDelivered` and `Wire.BodiesDelivered`; and with nothing asked of the program, for every
well-formed upstream body: `Whole.WellFormedDelivered`). For every stream of upstream events that commits, every
terminal response that is accepted, and every interleaving of the session's writes, the events the host accepts are ordered,
numbered, end once, and are to a strict client exactly one complete delivery of every output item: the terminal
texts, each item and part opened and closed once, and, as closing snapshots, the live ones of whatever was closed
live and the terminal ones of all the rest.

## How it is organised

| file | what it holds |
|---|---|
| `Responses.dfy` | responses, output items, parts and streaming events as datatypes; text is a sequence of bytes |
| `Delivery.dfy` | what one event does to the delivery state (`Apply`), a whole history from scratch (`Run`), and the specification machine (`NaiveStep`), which re-runs its history at every step |
| `Streaming.dfy` | the class `StreamDelivery` with the program's own fields, proved to refine the specification machine |
| `Replay.dfy` | expanding a terminal response into events, and `keepFinal` |
| `Client.dfy`, `Acceptance.dfy` | a strict client per output index, and what its acceptance means for the events alone |
| `Convergence.dfy`, `Turn.dfy` | live frames followed by the filtered replay are one delivery; properties of whole turns; buffered mode |
| `Snapshots.dfy`, `Probabilities.dfy`, `Shortfalls.dfy` | the closing snapshots and the token probabilities a client holds; two concrete streams in which they differ from what one might expect |
| `Space.dfy`, `Sse.dfy`, `Feeding.dfy` | white space; decoder and writer of the event stream (fields `event` and `data` of section 9.2.6 of the HTML Living Standard), the chunk feeder, the guarded read loop |
| `Exact.dfy` | which histories, terminal responses and frames those are, told by the events alone |
| `LiveForms.dfy` | well-formed streams, however cut and interleaved, and that the machine takes them |
| `Session.dfy` | the downstream session and all interleavings of its operations |
| `Reading.dfy`, `Writing.dfy` | what the members of an event mean; the objects events travel as, and that they are read back |
| `Parsing.dfy` | the terminal response of a body, and failures the upstream reports |
| `EndToEnd.dfy`, `Wire.dfy`, `Whole.dfy` | delivery machine, attempts and session together; the same from the bytes on; whole well-formed bodies |
| `Closing.dfy` | who closes the host stream, and the summary written at the end |
| `Guard.dfy` | the upstream guard: watcher, attach, abort, release |
| `Attempts.dfy`, `Summary.dfy` | the attempt loops and the verdict of the summary line |
| `Catalog.dfy`, `Relay.dfy`, `Batch.dfy`, `History.dfy` | the tool catalog, the relay envelope, the all-or-nothing transformation, and history on its way upstream |
| `Routing.dfy`, `Schemas.dfy` | which outer calls lead to which tool; what the keywords of a schema mean |
| `Attachments.dfy` | the attachment cache under any number of callers |
| `Lifecycle.dfy` | the generations of the plugin |

Code that updates objects is modelled by classes whose methods equal a function of the old state; the properties
are then lemmas about that function and its runs. Goroutines are modelled by atomic steps: what holds a mutex is
one step, a `sync.Once` is a resource with an owner, timers and channel readiness are arbitrary.

## Findings

The proofs made a few limits of the code exact:

- Token probabilities: those carried by the deltas of a text part are a beginning of the terminal ones, and all of
  them unless the text was complete without the replay while some had not been sent (`Probabilities.DeltaLogprobs`).
  Both ways of falling short occur in one accepted stream: a part streamed without probabilities, and an empty part
  that has some (`Shortfalls.DeltasFallShort`). Nothing is lost by it: whenever the deltas fall short, the event that
  closes the text carries all of them, and no such event ever carries others (`Probabilities.ProbabilitiesDelivered`).
  A client that only adds up deltas is the one that misses them.
- Closing snapshots: the terminal response is checked for identity, part kinds, texts and probabilities only. A
  message or part that was closed live with other contents, such as another refusal, status or annotation, is
  accepted, and the terminal snapshot is then dropped from the replay. The client holds the terminal snapshots if
  and only if everything closed live was closed with the same contents (`Snapshots.SnapshotsDelivered`); kinds and
  texts always agree (`Snapshots.SnapshotsAgree`). A stream in which they differ: `Shortfalls.SnapshotsDiffer`.
- A JSON body is treated as an event stream exactly when a chunk ends inside a multi-byte white-space character in
  front of it (`Feeding.JsonBodyDetected`, smallest example in `Feeding.SplitBlankMisleads`). In every other case
  feeding chunks equals decoding the whole body. The mistake does no harm unless a line of the body begins with
  `data:`, which no JSON text allows (`Feeding.OffersIffData`).
- The machine and the parser read a body independently, and the parser is the more lenient one: it does not look at
  item events at all, wherever they stand. But once the machine has accepted a body, the parser can only find fault with its one
  terminal event, or miss one (`Parsing.ParsedAfterFeed`).
- The comment at stream_session.go:116-117 says that whoever sees `forced` finds the close already taken. That
  holds. The hook runs if and only if the ending took its check while `forced` was not visible
  (`Closing.HookRunsExactly`), so it may still start after the flag is set (`Closing.HookMayStartForced`); a hook
  that looks for the reason after that writes the forced reason (`Closing.HookRunsExactly`). The record differs from a
  forced close only if the hook had looked before the reason was set (`Closing.RecordMayMissForce`,
  `Closing.EndedProperly`).
- An aborting watcher and a later attach never miss each other exactly when the guard was given an error for
  timeouts, as all its callers do (`Guard.AbortNeverLost`).
- `host.http.cancel` may be called twice, but only if no stream was ever attached (`Guard.UpstreamClosedOnce`; a run
  in which it is: `Guard.TwoCancels`).

## Model

| member | source | states |
|---|---|---|
| EndToEnd.OneDelivery | internal/basispoints/stream_events.go:123-658 | live frames handed to an open session in order and then finished with the filtered replay give, over every interleaving with prologues and heartbeats, an ordered, ended stream in which every output index is delivered exactly once, with the terminal texts, the live snapshots of what was closed live and the terminal ones of the rest |
| Whole.WellFormedDelivered | internal/basispoints/service.go:538-632 | a well-formed upstream body with some text, written as an event stream and read in any chunks, is taken, parsed to its response and delivered to the client once and completely, over every interleaving of the session; nothing is asked of the machine |
| Whole.BodyTaken | internal/basispoints/stream_events.go:123-250 | in either mode the machine takes such a body to its end, holds exactly its message and reasoning events, commits exactly when it is incremental and some text came, and then accepts the response |
| Whole.BodyParsed | internal/basispoints/response.go:74-111 | and the parser gives exactly the response that was written |
| EndToEnd.RequestDelivered | internal/basispoints/service.go:538-632 | the same for a whole request, from its tool list and choice on, over one or two round trips on the same session, for the answer it ends with |
| EndToEnd.RequestReplayed | internal/basispoints/service.go:586-591 | an answer that is delivered before any frame was shown, in either mode and after one or two round trips, reaches the client whole at the end |
| EndToEnd.WholeBatches | internal/basispoints/stream_session.go:175-242 | however a session ends, the client has received a beginning of what was handed over, cut between two batches, and after it at most the replay of one finish |
| Wire.ChunksDelivered | internal/basispoints/service.go:545-568 | the main theorem for an event-stream body that arrives in any chunks, its events classified and its terminal response parsed from it: what the client holds is what decoding the whole body yields, and the response is that of the body's only terminal event, with nothing but end markers behind it |
| Wire.BodiesDelivered | internal/basispoints/service.go:538-632 | the same for a whole request, whatever one or two upstream replies bring in any chunks; the answer was made from the response of the last body |
| Wire.ParsedFromChunks | internal/basispoints/response.go:74-111 | an accepted event body, read in any chunks, is parsed to a response if and only if it has a terminal event that carries it, the only one and followed by end markers alone |
| Wire.SameFeed | internal/basispoints/service.go:686-709 | the state and the frames of the machine behind the feeder do not depend on where the body was cut |
| EndToEnd.NothingIsLost | internal/basispoints/stream_session.go:228-242 | while a session is open, the accepted events about output items are exactly the delivered frames, in order |
| EndToEnd.WholeReplay | internal/basispoints/stream_session.go:399-411 | a finish after nothing was delivered sends exactly the events of the whole response |
| EndToEnd.WholeDelivery | internal/basispoints/service.go:589-591 | in buffered mode, or when a turn never committed, every item but reasoning is delivered to the strict client once and completely at the end, and a reasoning item is announced and closed as a whole |
| EndToEnd.ProjectedOutput | internal/basispoints/protocol.go:1016-1064 | among the events a response expands to, those about one index are exactly its item's, whatever stands before and after |
| EndToEnd.FramesAreAboutItems | internal/basispoints/stream_events.go:298-305 | the delivery machine never forwards an event that carries a response object |
| EndToEnd.ClientReadsItems | internal/basispoints/protocol.go:1009-1015 | the prologue, heartbeats and terminal events do not change what a client assembles for an output index |
| Streaming.StreamDelivery.Consume | internal/basispoints/stream_events.go:123-250 | one call does what the specification machine does: record every output event, commit at the first non-empty delta at which the response id is known and a fresh run of everything recorded succeeds, then forward what that run forwards; the same errors in the same order |
| Streaming.StreamDelivery.ConsumeOutput | internal/basispoints/stream_events.go:204-250 | the same for a numbered message or reasoning event |
| Streaming.StreamDelivery.CheckAndForward | internal/basispoints/stream_events.go:204-220 | a buffered or committed machine refuses the first event that does not continue its history; only a committed one forwards |
| Streaming.StreamDelivery.Gather | internal/basispoints/stream_events.go:221-250 | an uncommitted machine records the event and commits exactly when the specification does |
| Streaming.StreamDelivery.TryCommit | internal/basispoints/stream_events.go:226-249 | the pre-filter and the remembered failure never change the answer: the batch is taken exactly when a fresh run of it succeeds |
| Streaming.StreamDelivery.ReplayPending | internal/basispoints/stream_events.go:257-278 | the trial run succeeds exactly when a fresh run does, takes over its state and frames, and otherwise changes nothing |
| Streaming.StreamDelivery.Record | internal/basispoints/stream_events.go:170-221 | recording keeps the pre-filter in step with everything recorded, and a broken batch stays broken |
| Streaming.StreamDelivery.Learn | internal/basispoints/stream_events.go:170-199 | the pre-filter knows the last announced item of each kind and the kind of each announced part |
| Streaming.StreamDelivery.NoteDelivered | internal/basispoints/stream_events.go:283-295 | the flags rise exactly for the kinds of non-empty text in the batch |
| Streaming.StreamDelivery.ApplyEvent | internal/basispoints/stream_events.go:298-305 | the in-place update agrees with the pure one, and a refused event leaves the state alone |
| Streaming.StreamDelivery.ApplyReasoningEvent | internal/basispoints/stream_events.go:311-392 | the same for reasoning items and summaries: announced blank and without ciphertext, closed without being forwarded |
| Streaming.StreamDelivery.ApplyMessageEvent | internal/basispoints/stream_events.go:418-508 | the same for messages |
| Streaming.StreamDelivery.ApplyPartEvent | internal/basispoints/stream_events.go:456-507 | the same for the four part events of either kind: opened in order, text accumulated, closed with the accumulated text |
| Streaming.StreamDelivery.CheckItem | internal/basispoints/stream_events.go:397-416 | the loop over the parts decides whether the item continues what was streamed, ciphertext aside |
| Streaming.StreamDelivery.ValidateFinal | internal/basispoints/stream_events.go:531-586 | accepts exactly the terminal responses of which everything streamed or checked is a beginning; an uncommitted incremental machine accepts all |
| Streaming.StreamDelivery.CheckMessage | internal/basispoints/stream_events.go:547-584 | decides this for one message |
| Streaming.RunFailsOn | internal/basispoints/stream_events.go:239-246 | once a recorded batch is inconsistent no longer batch can become consistent, so remembering the failure skips no retry that could succeed |
| Delivery.FilterPassesConsistentDeltas | internal/basispoints/stream_events.go:226-238 | whenever the recorded history is consistent, the pre-filter lets its last delta pass |
| Delivery.RunKnows | internal/basispoints/stream_events.go:170-199 | every opened item and part of a consistent history is known to the pre-filter under its own id and kind |
| LiveForms.LiveAccepted | internal/basispoints/stream_events.go:297-586 | every beginning of a well-formed stream, however the texts and probabilities of its items are cut into deltas and the items interleaved, is taken, and the response it belongs to accepted |
| LiveForms.LiveRemembered | internal/basispoints/stream_events.go:297-508 | at its end the machine remembers of every index exactly the item there: its id and the texts and probabilities of its parts |
| LiveForms.LiveTurn | internal/basispoints/stream_events.go:123-250 | such a stream is fed without an error in either mode, commits exactly at some text, and shows the frames of what was said |
| LiveForms.RunLocal | internal/basispoints/stream_events.go:297-508 | a history is consistent if and only if the events of every index are by themselves, and leaves of each index what these leave |
| Exact.ConsistentIff | internal/basispoints/stream_events.go:297-508 | the machine takes a history if and only if each event was allowed by what had been said of its index before: opened once, parts in order, text only into open parts, closed with exactly what was said |
| Exact.AcceptedIff | internal/basispoints/stream_events.go:531-586 | a response is accepted for a consistent history if and only if at every index of which something was said its item continues that |
| Exact.FramesShown | internal/basispoints/stream_events.go:311-508 | what each event lets the client see: blank announcements without ciphertext, deltas with a list of probabilities, no closing of reasoning items, everything else as it came |
| Exact.RefusedIff | internal/basispoints/stream_events.go:123-215 | an upstream event is refused if and only if it is broken, comes after the end, reports a failure, gives another response id, has no index from 0 to 2^30, or does not continue what a checking machine has taken |
| Exact.TakenAs | internal/basispoints/stream_events.go:123-250 | what an event that is taken changes: the count, the end, the response id, the history, and the commit at the first text for which the id is known and everything so far consistent |
| Exact.HandedOn | internal/basispoints/stream_events.go:153-250 | what is handed on: the id when first told, the whole batch with it at the commit, then each frame as it comes |
| Replay.SyntheticEventsFor | internal/basispoints/protocol.go:1001-1074 | the loop produces prologue, items in order and the terminal event of the response's own status, as the specification function lists them |
| Replay.ContentEvents | internal/basispoints/protocol.go:1079-1134 | the loops over parts produce the same events for messages and summaries, skipping parts that have none |
| Replay.ItemExpanded | internal/basispoints/protocol.go:1016-1064 | each item is announced first, in progress and without what follows, and closed last as it is; a tool call's payload travels between in one delta, if it has text, and its end |
| Replay.FrameExpanded | internal/basispoints/protocol.go:1009-1073 | the prologue and the terminal event of a response, by its status |
| Replay.FilterReplay | internal/basispoints/stream_session.go:390-398 | the in-place filter of the replay keeps exactly what `keepFinal` keeps, trimmed as it trims |
| Client.RunMirrored | internal/basispoints/stream_events.go:297-508 | whatever history the machine accepts, a strict client accepts its frames and sees exactly the machine's state: the same items, open parts, texts and probabilities |
| Convergence.PartsReplayed | internal/basispoints/stream_events.go:591-658 | replaying any number of parts through the filter completes a client's parts to the terminal ones without repeating anything |
| Convergence.ItemReplayed | internal/basispoints/stream_events.go:591-658 | the same for a whole item of any kind, seen or unseen before |
| Convergence.OutputReplayed | internal/basispoints/protocol.go:1016-1064 | the same for any number of items, the others untouched |
| Convergence.LiveThenReplay | internal/basispoints/stream_events.go:297-658 | the live frames of any consistent history followed by the filtered replay of any accepted response are one delivery for every output index |
| Snapshots.HeldInTheEnd | internal/basispoints/stream_events.go:591-658 | after live frames and filtered replay the client holds every item delivered once, the live closing snapshots of what was closed live, and the terminal ones of all the rest |
| Snapshots.SnapshotsDelivered | internal/basispoints/stream_events.go:527-586 | for every committing feed: a client that keeps closing snapshots holds the terminal item and parts if and only if everything closed live was closed with the same contents; items other than messages always close with the terminal item |
| Snapshots.SnapshotsAgree | internal/basispoints/stream_events.go:547-584 | a live snapshot never differs from the terminal part in its kind nor, for a text, in its text |
| Shortfalls.SnapshotsDiffer | internal/basispoints/stream_events.go:563-582 | the concrete accepted stream after which the client holds another refusal and another closing item than the terminal ones |
| Shortfalls.DeltasFallShort | internal/basispoints/protocol.go:1121-1131 | the concrete accepted stream whose deltas carry no probabilities, neither of a streamed part nor of an empty one; the events that close the two texts carry them |
| Acceptance.FinishedItem | internal/basispoints/stream_events.go:588-658 | a stream the strict client accepts to the end opens the item once and first, closes it once and last, opens parts in increasing order, each once, closes each once, and its deltas add up to the part's text |
| Turn.FeedForwardsItsHistory | internal/basispoints/stream_events.go:204-250 | at any moment of any feed a machine has forwarded nothing before its commit and exactly the frames of its history since; buffered machines never forward |
| Turn.FlagsTellWhatWasDelivered | internal/basispoints/stream_events.go:283-295 | the two delivery flags hold exactly when non-empty text of their kind has been forwarded, and a commit always forwards some |
| Turn.AcceptanceSurvives | internal/basispoints/service.go:567-590 | the check made on the raw terminal response holds for the transformed one |
| Turn.Converges | internal/basispoints/service.go:562-597 | for every committing feed, accepted terminal and transformation that keeps messages and reasoning, the client ends with one complete delivery of every index |
| Turn.EachItemOnce | internal/basispoints/stream_events.go:588-658 | the same in terms of events: one opening first, one closing last, parts in order each with one opening and closing, text parts with one text end and deltas that add up to the terminal text; items other than messages close with the terminal item, ciphertext included |
| Turn.LiveFramesHideCiphertext | internal/basispoints/stream_events.go:318-347 | no live frame announces a reasoning item with a ciphertext or summary, and none closes one |
| Turn.ConsistentHistoryCommits | internal/basispoints/stream_events.go:221-249 | once the response id is known a consistent history is fed without error, and commits and is shown exactly when it holds a non-empty delta |
| Probabilities.ProbabilitiesDelivered | internal/basispoints/stream_events.go:642-655 | for every committing feed, accepted terminal and text part, streamed or not: the probabilities of the deltas are all of the terminal ones or a closing text event carries all of them, and no closing text event carries any other list |
| Probabilities.DeltaLogprobs | internal/basispoints/stream_events.go:642-651 | the probabilities carried by deltas are a beginning of the terminal ones, and all of them if and only if the text was not complete without the replay or all had been sent |
| Turn.BufferedSimulates | internal/basispoints/stream_events.go:204-208 | as long as the history is consistent, buffered mode makes the same steps and errors as incremental mode and forwards nothing |
| Turn.BufferedAgrees | internal/basispoints/stream_events.go:527-534 | on every feed that commits, both modes accept the same terminal responses |
| Sse.SseDecoder.Feed | internal/basispoints/upstream.go:316-346 | the events handed out and the state kept are those of scanning buffer and chunk together, up to the first event the consumer rejects; then the buffer is left unconsumed |
| Sse.ScanAppend | internal/basispoints/upstream.go:316-346 | scanning a text in two pieces gives the events and the state of scanning it whole |
| Sse.RenderSSE | internal/basispoints/protocol.go:1136-1165 | the loop writes the events in order and the end marker when asked |
| Sse.RoundTrip | internal/basispoints/protocol.go:1136-1165 | decoding what was written returns the same names and data in order, the end marker last, and leaves nothing behind |
| Sse.BlockDecoded | internal/basispoints/upstream.go:316-346 | any block of fields with either line break gives one event under its last name, its pieces of data joined by line feeds, or none without data, and leaves nothing behind |
| Feeding.IncrementalFeeder.Feed | internal/basispoints/service.go:686-701 | one chunk does the specified step: decide once between JSON and events, then decode |
| Feeding.IncrementalFeeder.Flush | internal/basispoints/service.go:704-709 | completes a last event that no blank line follows |
| Feeding.ChunkingInvariance | internal/basispoints/response.go:56-111 | an event-stream body gives the consumer the same events however it is cut into chunks, those of decoding it whole |
| Feeding.FirstErrorInvariance | internal/basispoints/service.go:686-709 | with a consumer that fails, the events up to and including the failing one do not depend on the cut either |
| Feeding.JsonBodyDetected | internal/basispoints/service.go:688-696 | a JSON body is mistaken for events if and only if some chunk ends inside a multi-byte blank before it; otherwise nothing is decoded |
| Feeding.SplitBlankMisleads | internal/basispoints/service.go:690-694 | the concrete chunks for which it is mistaken |
| Feeding.OffersIffData | internal/basispoints/upstream.go:316-346 | a body in any chunks offers an event if and only if it was taken for an event stream and one of its lines begins with `data:` |
| Parsing.ParseFinal | internal/basispoints/response.go:56-112 | decoder and callback give the result the specification lists: JSON object or events, the first fault in order, the one terminal response |
| Parsing.ParseEvents | internal/basispoints/response.go:74-100 | the callback over any events finds the terminal response or the first error |
| Parsing.ParsedIff | internal/basispoints/response.go:74-100 | events are parsed without error if and only if none is broken, a failure or a defective terminal event and at most one is terminal; what is found is the response of that one |
| Parsing.FedInOrder | internal/basispoints/stream_events.go:123-150 | whatever the machine accepts to the end holds no broken event and no failure, and after a terminal event or an end marker nothing but end markers |
| Parsing.ParsedAfterFeed | internal/basispoints/response.go:79-98 | for a body that the machine has accepted, in either mode, parsing yields the response of its only terminal event or what is wrong with that, and cannot fail for anything else |
| Parsing.ReportedScope | internal/basispoints/upstream_failure.go:15-75 | a reported failure is one of the request alone if and only if no status and no code in it speaks of the credential, a limit or the route |
| Parsing.EventBodyParsed | internal/basispoints/response.go:56-111 | an event body is parsed if and only if nothing in it is broken or a failure, exactly one event is terminal, and that one holds an object with status completed or incomplete, of its own kind, and an output array; the result has its id, its status and one item per element |
| Parsing.JsonBodyParsed | internal/basispoints/response.go:61-68 | a JSON body is parsed if and only if it is one object with such a status and an output array |
| Parsing.ResponseIff | internal/basispoints/response.go:36-52 | a terminal object is accepted exactly when it may be delivered, and reported as a failure exactly when its status says so |
| Parsing.FailureClass | internal/basispoints/upstream_failure.go:15-66 | the class of a reported failure by what its members name, in order of precedence |
| Parsing.BodyError | internal/basispoints/response.go:16-32 | a reported failure keeps its class, every other defect of a body is a bad gateway |
| Reading.OutputIsProgress | internal/basispoints/stream_events.go:161-203 | whatever the classification hands on is a message or reasoning event with a 64-bit index; events about items that may carry tool calls never are |
| Writing.ClassifiesBack | internal/basispoints/stream_events.go:129-203 | an event written with the member names the program itself writes is classified as itself: messages and reasoning whole, tool events not at all, the others by kind and response id |
| Writing.NameStandsIn | internal/basispoints/stream_events.go:140-144 | the name an event is sent under stands in for a missing type |
| Writing.ItemReadBack | internal/basispoints/protocol.go:1016-1064 | items of every kind, with their parts, are read back as they were written |
| Writing.ResponseReadBack | internal/basispoints/response.go:36-52 | so are responses |
| Writing.MarkersAndBroken | internal/basispoints/stream_events.go:125-132 | end markers are told by their text alone, broken events by their JSON alone |
| Writing.ClassifiedOtherwise | internal/basispoints/stream_events.go:145-203 | failures, unknown kinds, items that may be tool calls, and events without a whole-number index |
| Writing.Int64Exactly | internal/basispoints/stream_events.go:99-108 | an index is read from digits alone, within 64 bits |
| Feeding.ReadGuardedInto | internal/basispoints/upstream.go:260-306 | every non-empty chunk reaches the callback once and in order, the result is their concatenation and within the limit, the first failing read decides the error, and its chunk has reached the callback exactly if it got past the limit check |
| Feeding.TakeChunk | internal/basispoints/upstream.go:267-301 | the checks of one read in the program's order: abort, transport, limit, client gone, abort during the callback, callback error; the callback is called exactly past the limit |
| Feeding.FailsFor | internal/basispoints/upstream.go:267-301 | why one read fails, if and only if, the stronger reasons first |
| Session.StreamSession.EmitLocked | internal/basispoints/stream_session.go:175-190 | a silent session writes nothing; an accepted batch is numbered on from the last number; a rejected one marks the client gone |
| Session.StreamSession.OpenStream | internal/basispoints/stream_session.go:196-212 | an unopened session is opened with the upstream response object or its own, whose id stays; an opened one is left alone |
| Session.StreamSession.DoStart | internal/basispoints/stream_session.go:248-256 | opens at once only with heartbeats on |
| Session.StreamSession.DoOpen | internal/basispoints/stream_session.go:215-225 | opens with the upstream id only with heartbeats on and on a session still writable |
| Session.StreamSession.DoDeliver | internal/basispoints/stream_session.go:228-242 | opens if needed and writes the frames, unless a close was forced at any of its three checks; true exactly when the frames were accepted |
| Session.StreamSession.DoTick | internal/basispoints/stream_session.go:280-294 | a heartbeat opens an unopened session and writes to an idle one |
| Session.StreamSession.DoFinish | internal/basispoints/stream_session.go:369-411 | the full or filtered replay is the last thing written, and the outcome is completed only if it reached a client that is still there; a stopped plugin fails instead |
| Session.StreamSession.DoFail | internal/basispoints/stream_session.go:423-447 | a request-scoped failure is written with a prologue if needed, any other closes in silence |
| Session.EveryInterleavingIsOrdered | internal/basispoints/stream_session.go:175-298 | over every interleaving of open, deliver, heartbeat, finish, fail and forced close: accepted events are numbered 0, 1, 2, …, begin with the only `response.created`, use one response id, and hold at most one terminal event, last |
| Session.OpeningTellsId | internal/basispoints/stream_session.go:196-212 | a stream opened with an upstream object takes over its id and announces it in progress and empty; otherwise the session's own id |
| Session.FinishTellsResponse | internal/basispoints/stream_session.go:385-402 | an accepted finish ends the stream with the response's own output under the stream's id, incomplete if and only if the response is |
| Session.FailureIsTold | internal/basispoints/stream_session.go:423-447 | a writable session tells the client of a failure, with its kind and as the last event, if and only if it concerns the request alone |
| Session.SilenceIsFinal | internal/basispoints/stream_session.go:175-178 | once closed, disconnected or forced, nothing more is ever accepted |
| Session.BatchKeepsOrder | internal/basispoints/protocol.go:1136-1149 | an accepted batch that continues the stream keeps it ordered and numbered |
| Session.OperationAdds | internal/basispoints/stream_session.go:175-447 | what each operation adds to an open stream, event by event |
| Closing.ClosedAtMostOnce | internal/basispoints/stream_session.go:309-343 | at every moment of every race of ending and two watchdogs: at most one close, one at least once the round trip is marked ended, at most one hook and one record; a forced close carries the error of its recorded reason, and is silent only if the plugin was stopped |
| Closing.EndedProperly | internal/basispoints/stream_session.go:81-147 | when the round trip is over: closed exactly once, one record; if the ending won, its own error closed the stream and its hook wrote the record; if a watchdog won, the record names its reason unless the hook had already looked |
| Closing.EveryRunIsOk | internal/basispoints/relay_summary.go:110-128 | the invariant of `closeOnce`, `forced`, `forceReason`, the hook and the record over every run |
| Closing.HookRunsExactly | internal/basispoints/stream_session.go:313-324 | over every run: the hook runs if and only if the ending took its check while no forced close was visible; it writes what had been recorded when it looked, so the forced reason if the flag was visible by then |
| Closing.ForcedKeepsHookOut | internal/basispoints/stream_session.go:114-118 | from a visible forced close that the ending has not checked yet, no continuation ever starts the hook |
| Closing.HookMayStartForced | internal/basispoints/stream_session.go:314-324 | the concrete run in which the hook starts after the forced flag is set |
| Closing.RecordMayMissForce | internal/basispoints/relay_summary.go:107-117 | the concrete run in which the record keeps the ending's outcome although a watchdog closed the stream |
| Closing.EveryRunEnds | internal/basispoints/stream_session.go:76-147 | even with the ending stuck in an emit that only a close ends, or in a log call that nothing ends, no run is longer than 20 steps and none gets stuck before the stream is closed and everybody else is gone |
| Closing.RecordExactly | internal/basispoints/relay_summary.go:226-240 | the exit and the kind a record names |
| Closing.ExitExactly | internal/basispoints/relay_summary.go:302-318 | how an error is recorded |
| Guard.UpstreamGuard.Aborted | internal/basispoints/upstream_guard.go:147-170 | asking is a step of the race that keeps its invariant and records the most important condition that holds |
| Guard.UpstreamGuard.WatcherResolves | internal/basispoints/upstream_guard.go:103-105 | so is the watcher's decision after it has been woken up |
| Guard.UpstreamGuard.RecordStream | internal/basispoints/upstream_guard.go:131-138 | attaching is a step of the race that keeps its invariant; the caller is told to close exactly when a reason has been recorded, in particular whenever an aborting watcher has already gone |
| Guard.UpstreamGuard.WatcherCloses | internal/basispoints/upstream_guard.go:119-128 | the watcher's close is of the attached stream, and keeps the invariant |
| Guard.UpstreamGuard.EndRelease | internal/basispoints/upstream_guard.go:189-197 | after the watcher has gone, release is left with the attached stream to close, or has cancelled the unclaimed operation |
| Guard.UpstreamClosedOnce | internal/basispoints/upstream_guard.go:87-199 | over every interleaving: no stream but the attached one is closed, at most once, exactly once when release has returned, already when an aborting watcher and the attach are both done; after release cancel has been called once for an aborting watcher and once for a missing stream |
| Guard.TwoCancels | internal/basispoints/upstream_guard.go:112-115 | the run in which the operation is cancelled twice |
| Guard.NoCallAfterRelease | internal/basispoints/upstream_guard.go:184-199 | whatever happens after release has returned, no host callback follows |
| Guard.AttachedExactly | internal/basispoints/upstream_guard.go:131-142 | over every interleaving what is attached is what the caller attached; a stream without an id never is, and never is closed |
| Guard.ReasonIsFinal | internal/basispoints/upstream_guard.go:153-170 | a reason never changes; after the plugin stopped it can only become stopped, after the client left never timed out |
| Guard.ReasonIsTrue | internal/basispoints/upstream_guard.go:156-170 | a reported reason is a condition that holds |
| Guard.AbortNeverLost | internal/basispoints/upstream_guard.go:103-142 | over all runs an abort never misses the attached stream, if and only if timeouts have been given an error |
| Guard.ReleaseReturns | internal/basispoints/upstream_guard.go:184-199 | until release has returned the caller or the watcher can take a step, and each has a bounded number left |
| Attempts.ExecuteStream | internal/basispoints/service.go:538-632 | at most two round trips, the second exactly when the first failed for its tools, was not incomplete, had not committed and time was left; shown frames, answer and summary log are those of the attempts made |
| Attempts.ExecuteOnce | internal/basispoints/service.go:331-358 | the same loop without streaming |
| Attempts.RoundTrip | internal/basispoints/service.go:538-611 | one round trip gives its frames, its answer, the summary of its check, and whether it may be repeated |
| Attempts.ShownByLastTrip | internal/basispoints/service.go:599-631 | over both attempts the client is shown the frames of the last one alone, and a delivered answer is the last one's |
| Attempts.Receive | internal/basispoints/service.go:545-555 | driving the delivery object over the upstream events equals the specification's feed, up to the first error |
| Attempts.OneTrip | internal/basispoints/service.go:538-580 | one round trip stops at its first failing stage, in the program's order, or comes to exactly one recorded check |
| Attempts.RetriedShowsNothing | internal/basispoints/service.go:599-607 | an attempt that has not committed, as every one that may be repeated, has shown nothing |
| Attempts.DeliveredAgrees | internal/basispoints/service.go:567-597 | a delivered answer was accepted by the machine, keeps messages and reasoning in place, and is filtered with the state of the shown frames exactly when some were shown |
| Attempts.RetriedIff | internal/basispoints/service.go:599-607 | a round trip is repeated if and only if it was complete, its tools are at fault, its response was not cut short and nothing had been committed |
| Attempts.AnsweredIff | internal/basispoints/service.go:545-598 | an answer is delivered if and only if the trip was complete and its tools are in order; it is the parsed response with the transformed output, filtered exactly after a commit |
| Attempts.StoppedBy | internal/basispoints/service.go:545-571 | otherwise the first thing that went wrong is reported |
| Summary.RelaySummary.AttemptStarted | internal/basispoints/relay_summary.go:175-182 | counts the attempt and forgets an earlier final verdict |
| Summary.RelaySummary.Validated | internal/basispoints/relay_summary.go:197-209 | the record stays the fold of everything noted |
| Summary.RelaySummary.RegenEntry | internal/basispoints/relay_summary.go:243-254 | the entry written is the one the noted events determine |
| Summary.OneAttemptVerdict | internal/basispoints/relay_summary.go:226-258 | one attempt: first and final are its check, and a regeneration that never began is aborted |
| Summary.TwoAttemptsVerdict | internal/basispoints/relay_summary.go:226-258 | two attempts: first is the failed check, final the second one's; success exactly if that passed, exhausted exactly if it failed, aborted if there was none; only passing batches count older calls |
| Summary.VerdictExactly | internal/basispoints/relay_summary.go:260-276 | the verdict of a check by the calls of its response |
| Batch.TransformOutput | internal/basispoints/protocol.go:923-977 | the loop returns the first fault in order, or the whole transformed batch with its counts |
| Batch.TransformedIff | internal/basispoints/protocol.go:942-972 | a response is transformed if and only if every call is valid, call ids are pairwise distinct, a demanded call is there and a forbidden second one is not |
| Batch.TransformedInPlace | internal/basispoints/protocol.go:942-976 | the transformed output has the same length, every other item at its place, every call at the place of its native call, callable, of the tool's kind, with an id of its own |
| Batch.TransformResponse | internal/basispoints/protocol.go:935-977 | the catalogs of a request's source and choice, its call demand and limit, then the batch |
| Batch.TermsAreFormed | internal/basispoints/protocol.go:936-937 | the callable catalog of any request is well formed and part of the declared one |
| Batch.StatsExact | internal/basispoints/protocol.go:935-977 | the counts of a transformed batch are those of its calls and of its calls in the older form |
| Relay.ExtractedIsCallable | internal/basispoints/protocol.go:865-892 | an extracted call keeps its call id and names a tool of the callable catalog by a name that can be referred to |
| Relay.PayloadFitsTool | internal/basispoints/protocol.go:893-914 | a function call carries the text of an object that fits the tool's schema; a custom call its input unchanged |
| Routing.NewFormIff | internal/basispoints/protocol.go:729-750 | a call leads to a tool in the present form if and only if its one reference is that tool's name and its code the payload |
| Routing.OldFormIff | internal/basispoints/protocol.go:751-763 | and in the older form if and only if it has no references and its code is the text of an object of exactly a tool name and arguments |
| Routing.DecodedIff | internal/basispoints/protocol.go:690-704 | arguments come from an object, its text, or a text that holds its text once more |
| Routing.ExtractedShape | internal/basispoints/protocol.go:865-915 | ids, names, kind and status of an extracted call |
| Routing.RefusedFor | internal/basispoints/protocol.go:875-884 | why a well-formed outer call is refused |
| Relay.TypeListOffersAlternatives | internal/basispoints/protocol.go:768-781 | a list of types accepts a value if and only if the schema with one of those types alone does |
| Schemas.TypesAdmit | internal/basispoints/protocol.go:781-836 | each of the seven type names admits exactly the values of its kind |
| Schemas.ObjectFits | internal/basispoints/protocol.go:782-806 | an object fits if and only if the required members are there, the declared ones fit, and no others are where the schema is closed |
| Schemas.ArrayFits | internal/basispoints/protocol.go:807-818 | an array fits if and only if all its elements do |
| Schemas.EnumAdmitsTheListed | internal/basispoints/protocol.go:837-848 | a non-empty enumeration admits exactly the values that print like one of its elements |
| Relay.EnvelopeOfRebuilt | internal/basispoints/protocol.go:315-352 | a call rebuilt from history leads back to its tool with the payload to the byte, if and only if its name can be referred to |
| Relay.ExtractRebuildExtract | internal/basispoints/protocol.go:865-915 | extracting, rebuilding and extracting again returns the same name, namespace, call id, status and payload, and from then on nothing changes |
| Relay.ExtractedRebuilds | internal/basispoints/protocol.go:321-334 | an extracted call can always be rebuilt |
| Catalog.ClientToolSpecs | internal/basispoints/protocol.go:76-96 | the recursive visit with its map and conflict set computes the fold over all declarations |
| Catalog.CatalogExactly | internal/basispoints/protocol.go:80-94 | without a top-level list a key is in the catalog if and only if it is declared and all its declarations are equal; a key in conflict never comes back |
| Catalog.OrderIndependent | internal/basispoints/protocol.go:76-96 | hence the catalog depends only on which declarations there are, not on their order or number |
| Catalog.LastDeclarationWins | internal/basispoints/protocol.go:81-84 | with a top-level list every declared key, and no other, has the declaration after which none of the same key follows |
| Catalog.SpecsFormed | internal/basispoints/protocol.go:43-50 | every catalog entry stands under its own key, the one its namespace and name spell |
| Catalog.CallableClientToolSpecs | internal/basispoints/protocol.go:99-125 | exactly the keys the tool choice allows, each with its catalog entry |
| Catalog.DeclaredExactly | internal/basispoints/protocol.go:33-56 | exactly the named tools at any depth are declared, under the namespace of their innermost group |
| Catalog.CallableExactly | internal/basispoints/protocol.go:99-125 | what each tool choice allows, told by names and kinds |
| Catalog.RequiredExactly | internal/basispoints/protocol.go:127-139 | which tool choices demand a call |
| History.TranslateInputItems | internal/basispoints/protocol.go:364-434 | the loop with its table of call origins translates every item by itself, in order; an output looks back only for whether an earlier call has its id |
| History.RefusedIff | internal/basispoints/protocol.go:390-393 | a history is refused if and only if some client call has a payload that cannot be text |
| History.OnlyPresentable | internal/basispoints/protocol.go:415-430 | no tool catalog, reference or bare reasoning goes upstream, and no call but relay calls |
| History.CallAndOutput | internal/basispoints/protocol.go:381-413 | a rebuilt call leads back to its tool and payload, and its later output follows it under the rebuilt call's id |
| History.NothingLost | internal/basispoints/protocol.go:364-434 | what goes upstream are, one by one and in order, the calls, outputs, reasoning with ciphertext and unknown items of the history, each as it becomes |
| History.OthersKept | internal/basispoints/protocol.go:431-431 | every message and other unknown item goes upstream as it is, in order |
| Attachments.AttachmentCache.LookUp | internal/basispoints/attachments.go:42-59 | map, list and table change together: found and moved to the front, told to wait, or told to upload |
| Attachments.AttachmentCache.Complete | internal/basispoints/attachments.go:62-77 | a result is published, stored at the front only if it succeeded, and the oldest entry dropped beyond 512 |
| Attachments.EveryRunIsOk | internal/basispoints/attachments.go:41-79 | under every interleaving: at most 512 entries, no key twice, only ids uploaded for their key, keys in flight not cached, and every caller gets an id uploaded for its key or the result of the upload it waited for |
| Attachments.OneUploadPerKey | internal/basispoints/attachments.go:49-58 | two callers never upload the same key at the same time |
| Attachments.MostRecentlyUsed | internal/basispoints/attachments.go:43-74 | at every moment the cached keys are the 512 most recently used ones, latest first |
| Lifecycle.Plugin.Begin | internal/basispoints/service.go:65-74 | a turn is registered on the current generation, or refused when stopped |
| Lifecycle.Plugin.Reconfigure | internal/basispoints/service.go:163-173 | a stopped service gets a new generation, a running one keeps its own |
| Lifecycle.EveryRunIsOk | internal/basispoints/service.go:65-96 | over every interleaving a service that is not stopped has a live current generation, every earlier one is cancelled, and while a shutdown waits no generation appears |
| Lifecycle.StepRespectsLives | internal/basispoints/service.go:79-96 | a generation is cancelled only by its own shutdown, gains turns only while current and live, and a shutdown that returns in time has seen it empty |
| Lifecycle.CancelledOnlyDrains | internal/basispoints/service.go:86-95 | after its shutdown a generation only loses turns, so the wait is for those turns and no others |

## Left out

- The map values behind `messages`, `reasonings` and their parts are values, not heap objects, and the text builder is a string: aliasing between a probe and the machine is not modelled, the takeover of the probe's maps is.
- The pieces of a shared upload are known by a ticket; the channel a waiter blocks on is the presence of the finished result.
- JSON syntax, number precision and `cloneObject`: JSON text is read and written by functions of a codec, and the round-trip lemmas ask it to read back just the objects at hand; which members are read, and how, is modelled. `schemaMatches` on a cloned schema sees the same enumeration values.
- Identifiers and type names stand for their trimmed (and, where the program does so, lower-cased) form, also where events and responses are read: an identifier or type with surrounding white space, which some checks compare as it stands, is not told apart. The trimming of tool names, of referenced names and of the stream's own fields is modelled. Lower-casing of failure codes is that of ASCII letters.
- Members of events and items that are only copied are one field `rest`; log probabilities are compared by their encoding, as the program does. Removing `error` from the opening response object is not visible.
- Real time: tickers, deadlines and grace periods are arbitrary signals. `awaitConnect` and the placing of heartbeats in time are not modelled.
- Error texts, redaction and the mapping of diagnostics to summary categories: a failed check is recorded with its diagnostic instead.
- The rest of the summary record (model, transport, delivery, text and summary flags); the flags themselves are covered by `Turn.FlagsTellWhatWasDelivered`.
- EndToEnd.WholeDelivery: reasoning items of an uncommitted or buffered turn are announced with their whole summary, which the strict client refuses; for them the two events are given instead.
- Closing.EveryRunEnds: a `host.stream.close` that never returns is not modelled; an emit and a log call that do not return are.
- Snapshots.HeldInTheEnd: of announcements the client keeps nothing but what it needs to accept the rest; an opening that differs from the terminal item is superseded by the closing.
- Attempts.ExecuteStream: the session's answer to each frame is one of the read errors of a trip; the hint added to a repeated request's body is left to the environment.
- An input that is a plain text, which becomes one user message, or no list at all; `stripClientMetadata` on its items.
- The WebSocket transport, HTTP headers, credentials, proxies, model lists, configuration files and prompt texts.
- Planning and uploading of inline images around the cache (`planInputImages`, `uploadInputImages`), and recognising image formats.
- Conversation, turn and request identifiers derived by hashing.
