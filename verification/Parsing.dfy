/** The terminal response of a whole body: `parseFinalStreamResponse`, `terminalResponse` of
    internal/basispoints/response.go and `classifyUpstreamFailure` of upstream_failure.go; and that a body
    which the delivery machine accepts holds at most one terminal event, the one that is parsed. */
module Parsing {
  import opened Responses
  import opened Delivery
  import opened Space
  import opened Sse
  import opened Relay
  import opened Reading
  import Session
  import Feeding

  // ---------- failures the upstream reports ----------

  function Lower(s: string): string {
    seq(|s|, k requires 0 <= k < |s| => if 'A' <= s[k] <= 'Z' then (s[k] as int + 32) as char else s[k])
  }

  /** Capital ASCII letters become the small ones, and nothing else changes. */
  lemma LowerExactly(s: string, k: nat)
    requires k < |s|
    ensures |Lower(s)| == |s|
    ensures 'A' <= s[k] <= 'Z' ==> Lower(s)[k] as int == s[k] as int - 'A' as int + 'a' as int
    ensures !('A' <= s[k] <= 'Z') ==> Lower(s)[k] == s[k]
  {
  }

  predicate Contains(s: string, needle: string) {
    exists k :: 0 <= k <= |s| && needle <= s[k..]
  }

  predicate CodesMatch(codes: seq<string>, needles: set<string>) {
    exists code, needle | code in codes && needle in needles :: Contains(code, needle)
  }

  /** The objects of a failure in which a status or a code may stand; in an `error` its type is a code, too. */
  function Places(frame: Object): seq<(Object, bool)> {
    var response := ObjectMember(frame, "response");
    [(frame, false), (ObjectMember(frame, "error"), true), (response, false), (ObjectMember(response, "error"), true),
     (ObjectMember(response, "incomplete_details"), false)]
  }

  function StatusMember(value: Object, name: string): int {
    var n := IndexMember(value, name).GetOr(0);
    if 400 <= n <= 599 then n else 0
  }

  function StatusIn(value: Object): int {
    if StatusMember(value, "status") != 0 then StatusMember(value, "status")
    else if StatusMember(value, "status_code") != 0 then StatusMember(value, "status_code")
    else StatusMember(value, "http_status")
  }

  /** The first status named anywhere, 0 when there is none. */
  function StatusOf(places: seq<(Object, bool)>): int {
    if places == [] then 0 else if StatusIn(places[0].0) != 0 then StatusIn(places[0].0) else StatusOf(places[1..])
  }

  function CodeMember(value: Object, name: string): seq<string> {
    var code := Lower(TextMember(value, name));
    if code != "" then [code] else []
  }

  function CodesIn(place: (Object, bool)): seq<string> {
    var (value, withType) := place;
    CodeMember(value, "code") + CodeMember(value, "reason") + (if withType then CodeMember(value, "type") else [])
  }

  function CodesOf(places: seq<(Object, bool)>): seq<string> {
    if places == [] then [] else CodesIn(places[0]) + CodesOf(places[1..])
  }

  const LIMITS := {"rate_limit", "too_many_requests", "usage_limit", "quota"}
  const FORBIDDEN := {"account_deactivated", "forbidden", "permission", "unsupported_country", "unsupported_region"}
  const UNAUTHORIZED := {
    "invalid_api_key", "unauthorized", "unauthenticated", "authentication", "invalid_token", "token_expired",
    "expired_token", "token_invalidated", "token_revoked"}

  function FailureOf(frame: Object): Session.Failure {
    var status, codes := StatusOf(Places(frame)), CodesOf(Places(frame));
    if status in {401, 402, 403, 404, 429} then Session.Api("upstream_error", status)
    else if CodesMatch(codes, LIMITS) then Session.Api("upstream_error", 429)
    else if CodesMatch(codes, FORBIDDEN) then Session.Api("upstream_error", 403)
    else if CodesMatch(codes, UNAUTHORIZED) then Session.Api("upstream_error", 401)
    else Session.Api("upstream_incomplete", if status >= 400 then status else 502)
  }

  /** A failure is one of the request alone, which the client is told of, if and only if neither a status nor
      a code speaks of the credential, a limit or the route; any other is left to the host, without a word to
      the client. */
  lemma ReportedScope(frame: Object)
    ensures Session.IsRequestScoped(FailureOf(frame)) <==>
              && StatusOf(Places(frame)) !in {401, 402, 403, 404, 429}
              && !CodesMatch(CodesOf(Places(frame)), LIMITS + FORBIDDEN + UNAUTHORIZED)
    ensures !Session.SaysClientGone(FailureOf(frame))
  {
    hide StatusOf, CodesOf, Places, Contains;
    CodesMatchUnion(CodesOf(Places(frame)), LIMITS, FORBIDDEN);
    CodesMatchUnion(CodesOf(Places(frame)), LIMITS + FORBIDDEN, UNAUTHORIZED);
    hide CodesMatch;
  }

  lemma CodesMatchUnion(codes: seq<string>, a: set<string>, b: set<string>)
    ensures CodesMatch(codes, a + b) <==> CodesMatch(codes, a) || CodesMatch(codes, b)
  {
    hide Contains;
  }

  /** One of these members is a text in which the needle occurs, in whatever case. */
  predicate NamedIn(value: Object, names: set<string>, needle: string) {
    exists name | name in names ::
      name in value && value[name].Str? && Contains(Lower(TrimSpace(value[name].s)), needle)
  }

  /** The needle occurs in a code of the failure, of its error, of its response, or of that one's error or
      details; the type of an error counts as a code. */
  predicate Named(frame: Object, needle: string) {
    var response := ObjectMember(frame, "response");
    || NamedIn(frame, {"code", "reason"}, needle)
    || NamedIn(ObjectMember(frame, "error"), {"code", "reason", "type"}, needle)
    || NamedIn(response, {"code", "reason"}, needle)
    || NamedIn(ObjectMember(response, "error"), {"code", "reason", "type"}, needle)
    || NamedIn(ObjectMember(response, "incomplete_details"), {"code", "reason"}, needle)
  }

  lemma CodeNamed(value: Object, name: string, needle: string)
    requires needle != ""
    ensures (exists code | code in CodeMember(value, name) :: Contains(code, needle)) <==> NamedIn(value, {name}, needle)
  {
    NoText();
    assert Lower("") == "" && !Contains("", needle);
    hide TrimSpace;
    var code := Lower(TextMember(value, name));
    assert NamedIn(value, {name}, needle) <==> name in value && value[name].Str? && Contains(code, needle);
    if Contains(code, needle) && code != "" {
      assert code in CodeMember(value, name);
    }
  }

  lemma PlaceNamed(place: (Object, bool), needle: string)
    requires needle != ""
    ensures (exists code | code in CodesIn(place) :: Contains(code, needle)) <==>
              NamedIn(place.0, if place.1 then {"code", "reason", "type"} else {"code", "reason"}, needle)
  {
    hide CodeMember, Contains, TrimSpace;
    CodeNamed(place.0, "code", needle);
    CodeNamed(place.0, "reason", needle);
    CodeNamed(place.0, "type", needle);
  }

  lemma {:induction false} CodesNamed(places: seq<(Object, bool)>, needle: string)
    requires needle != ""
    ensures (exists code | code in CodesOf(places) :: Contains(code, needle)) <==>
              exists k | 0 <= k < |places| ::
                NamedIn(places[k].0, if places[k].1 then {"code", "reason", "type"} else {"code", "reason"}, needle)
  {
    hide CodesIn, Contains, NamedIn;
    if places != [] {
      PlaceNamed(places[0], needle);
      CodesNamed(places[1..], needle);
      assert forall k | 1 <= k < |places| :: places[k] == places[1..][k - 1];
    }
  }

  lemma FrameNamed(frame: Object, needle: string)
    requires needle != ""
    ensures (exists code | code in CodesOf(Places(frame)) :: Contains(code, needle)) <==> Named(frame, needle)
  {
    hide CodesOf, Contains, NamedIn, ObjectMember;
    CodesNamed(Places(frame), needle);
    var places := Places(frame);
    assert |places| == 5;
    assert places[0].1 == false && places[1].1 && places[2].1 == false && places[3].1 && places[4].1 == false;
  }

  lemma MatchNamed(frame: Object, needles: set<string>)
    requires "" !in needles
    ensures CodesMatch(CodesOf(Places(frame)), needles) <==> exists needle | needle in needles :: Named(frame, needle)
  {
    hide CodesOf, Places, Contains, Named;
    forall needle | needle in needles
      ensures (exists code | code in CodesOf(Places(frame)) :: Contains(code, needle)) <==> Named(frame, needle)
    {
      FrameNamed(frame, needle);
    }
  }

  /** A reported failure by what it names: an HTTP status about the credential, the account, the route or a
      limit first; then a code about a limit, about what is forbidden, about the credential; everything else
      failed for this request alone. */
  lemma FailureClass(frame: Object)
    ensures var status := StatusOf(Places(frame));
            FailureOf(frame) ==
              if status in {401, 402, 403, 404, 429} then Session.Api("upstream_error", status)
              else if exists n | n in {"rate_limit", "too_many_requests", "usage_limit", "quota"} :: Named(frame, n) then
                Session.Api("upstream_error", 429)
              else if exists n | n in {"account_deactivated", "forbidden", "permission", "unsupported_country", "unsupported_region"} ::
                        Named(frame, n) then
                Session.Api("upstream_error", 403)
              else if exists n | n in {"invalid_api_key", "unauthorized", "unauthenticated", "authentication", "invalid_token",
                                       "token_expired", "expired_token", "token_invalidated", "token_revoked"} :: Named(frame, n) then
                Session.Api("upstream_error", 401)
              else Session.Api("upstream_incomplete", if status != 0 then status else 502)
  {
    hide CodesOf, Places, Named, StatusOf, CodesMatch;
    MatchNamed(frame, LIMITS);
    MatchNamed(frame, FORBIDDEN);
    MatchNamed(frame, UNAUTHORIZED);
    StatusRange(Places(frame));
  }

  lemma {:induction false} StatusRange(places: seq<(Object, bool)>)
    ensures StatusOf(places) == 0 || 400 <= StatusOf(places) <= 599
    ensures StatusOf(places) != 0 <==> exists k | 0 <= k < |places| :: StatusIn(places[k].0) != 0
  {
    hide StatusIn;
    if places != [] {
      StatusRange(places[1..]);
      StatusInRange(places[0].0);
      assert forall k | 1 <= k < |places| :: places[k] == places[1..][k - 1];
    }
  }

  /** The status of one object: the first of three members that is a whole number between 400 and 599. */
  lemma StatusInRange(value: Object)
    ensures StatusIn(value) == 0 || 400 <= StatusIn(value) <= 599
    ensures forall name | name in {"status", "status_code", "http_status"} && name in value && value[name].Number? ::
              var n := Int64(value[name].lexeme); n.Some? && 400 <= n.value <= 599 ==> StatusIn(value) != 0
    ensures forall n: int | 400 <= n <= 599 && "status" in value && value["status"].Number? && Int64(value["status"].lexeme) == Some(n) ::
              StatusIn(value) == n
  {
    hide Int64;
  }

  // ---------- one terminal event ----------

  datatype ParseError =
    | EmptyBody
    | BadObject
    | BadEvent
    | NoResponse
    | BadStatus
    | NoOutput
    | StatusMismatch
    | SecondTerminal
    | NoTerminal
    | Reported(failure: Session.Failure)

  /** Every defect of the body is the upstream's; only a failure that it reports has a class of its own. */
  function FailureFor(err: ParseError): Session.Failure {
    if err.Reported? then err.failure else Session.Api("invalid_upstream_response", 502)
  }

  /** `terminalResponse`. */
  function TerminalResponse(codec: Codec, value: Object): Result<Response, ParseError> {
    var status := TextMember(value, "status");
    if status in {"failed", "cancelled"} then Err(Reported(FailureOf(map["response" := Obj(value)])))
    else if status !in {"completed", "incomplete"} then Err(BadStatus)
    else if !Member(value, "output").Arr? then Err(NoOutput)
    else Ok(ReadResponse(codec, value))
  }

  /** The response of a terminal event of this kind. */
  function TerminalOf(codec: Codec, kind: string, value: Object): Result<Response, ParseError> {
    if !Member(value, "response").Obj? then Err(NoResponse)
    else
      match TerminalResponse(codec, Member(value, "response").members)
      case Err(err) => Err(err)
      case Ok(response) => if "response." + response.status == kind then Ok(response) else Err(StatusMismatch)
  }

  /** One call of `emit`: the terminal response found so far, and the next event. */
  function ParseStep(codec: Codec, terminal: Option<Response>, m: Message): Result<Option<Response>, ParseError> {
    if IsDone(m) then Ok(terminal)
    else
      match codec.parse(m.data)
      case Err(_) => Err(BadEvent)
      case Ok(value) =>
        var kind := KindOf(value, m.event);
        if IsFailureKind(kind) then Err(Reported(FailureOf(value)))
        else if !IsTerminalKind(kind) then Ok(terminal)
        else
          match TerminalOf(codec, kind, value)
          case Err(err) => Err(err)
          case Ok(response) => if terminal.Some? then Err(SecondTerminal) else Ok(Some(response))
  }

  function ParseAll(codec: Codec, messages: seq<Message>): Result<Option<Response>, ParseError> {
    if messages == [] then Ok(None)
    else
      match ParseAll(codec, messages[..|messages| - 1])
      case Err(err) => Err(err)
      case Ok(terminal) => ParseStep(codec, terminal, messages[|messages| - 1])
  }

  /** `parseFinalStreamResponse`. */
  function Parsed(codec: Codec, raw: string): Result<Response, ParseError> {
    var trimmed := TrimSpace(raw);
    if trimmed == "" then Err(EmptyBody)
    else if trimmed[0] == '{' then
      (match codec.parse(trimmed)
       case Err(_) => Err(BadObject)
       case Ok(value) => TerminalResponse(codec, value))
    else
      match ParseAll(codec, Feeding.WholeBody(raw))
      case Err(err) => Err(err)
      case Ok(None) => Err(NoTerminal)
      case Ok(Some(response)) => Ok(response)
  }

  /** The events of a body one by one, up to the first error. */
  method ParseEvents(codec: Codec, messages: seq<Message>) returns (terminal: Option<Response>, err: Option<ParseError>)
    ensures ParseAll(codec, messages) == if err.Some? then Err(err.value) else Ok(terminal)
  {
    hide TerminalOf, IsDone, KindOf, FailureOf;
    terminal, err := None, None;
    for n := 0 to |messages|
      invariant err.None? && ParseAll(codec, messages[..n]) == Ok(terminal)
    {
      var m := messages[n];
      assert messages[..n + 1][..n] == messages[..n];
      if !IsDone(m) {
        var parsed := codec.parse(m.data);
        if parsed.Err? {
          err := Some(BadEvent);
        } else {
          var kind := KindOf(parsed.value, m.event);
          if IsFailureKind(kind) {
            err := Some(Reported(FailureOf(parsed.value)));
          } else if IsTerminalKind(kind) {
            var response := TerminalOf(codec, kind, parsed.value);
            if response.Err? {
              err := Some(response.error);
            } else if terminal.Some? {
              err := Some(SecondTerminal);
            } else {
              terminal := Some(response.value);
            }
          }
        }
        if err.Some? {
          ErrorStays(codec, messages, n + 1);
          return;
        }
      }
    }
    assert messages[..|messages|] == messages;
  }

  lemma {:induction false} ErrorStays(codec: Codec, messages: seq<Message>, n: nat)
    requires n <= |messages| && ParseAll(codec, messages[..n]).Err?
    ensures ParseAll(codec, messages) == ParseAll(codec, messages[..n])
  {
    hide ParseStep;
    if n == |messages| {
      assert messages[..n] == messages;
    } else {
      assert messages[..|messages| - 1][..n] == messages[..n];
      ErrorStays(codec, messages[..|messages| - 1], n);
    }
  }

  method ParseFinal(codec: Codec, raw: string) returns (r: Result<Response, ParseError>)
    ensures r == Parsed(codec, raw)
  {
    hide TrimSpace, TerminalResponse, ParseAll, Scan;
    var trimmed := TrimSpace(raw);
    if trimmed == "" {
      return Err(EmptyBody);
    }
    if trimmed[0] == '{' {
      var parsed := codec.parse(trimmed);
      return if parsed.Err? then Err(BadObject) else TerminalResponse(codec, parsed.value);
    }
    var decoder := new SseDecoder();
    ScanShort(NOTHING, raw);
    ScanAppend(NOTHING, raw, "\n\n");
    assert "" + raw == raw;
    var messages, ok := decoder.Feed(raw, |raw|);
    ScanShort(decoder.Collected(), decoder.buffer + "\n\n");
    var more;
    more, ok := decoder.Feed("\n\n", |decoder.buffer| + 2);
    var terminal, err := ParseEvents(codec, messages + more);
    return if err.Some? then Err(err.value) else if terminal.None? then Err(NoTerminal) else Ok(terminal.value);
  }

  /** Every event takes up a line of the text. */
  lemma {:induction false} ScanShort(p: Pending, text: string)
    ensures |Scan(p, text).messages| <= |text|
    decreases |text|
  {
    hide TakeLine, StripReturn, LineEnd, Dispatch;
    var n := LineEnd(text);
    DispatchesOne(p);
    if n < |text| {
      var line := StripReturn(text[..n]);
      if line == "" {
        ScanShort(NOTHING, text[n + 1..]);
      } else {
        ScanShort(TakeLine(p, line), text[n + 1..]);
      }
    }
  }

  lemma DispatchesOne(p: Pending)
    ensures |Dispatch(p)| <= 1
  {
  }

  // ---------- what a body holds ----------

  /** The one terminal event of a body, told by its message alone. */
  function ReadTerminal(codec: Codec, m: Message): Result<Response, ParseError> {
    match codec.parse(m.data)
    case Err(_) => Err(BadEvent)
    case Ok(value) => TerminalOf(codec, KindOf(value, m.event), value)
  }

  /** An event that no body with a terminal response may hold. */
  predicate Faulty(codec: Codec, m: Message) {
    match Classify(codec, m)
    case BadJson => true
    case Failure(_) => true
    case Terminal => ReadTerminal(codec, m).Err?
    case _ => false
  }

  lemma StepByClass(codec: Codec, terminal: Option<Response>, m: Message)
    ensures Classify(codec, m).Terminal? ==>
              ParseStep(codec, terminal, m)
              == match ReadTerminal(codec, m)
                 case Err(err) => Err(err)
                 case Ok(response) => if terminal.Some? then Err(SecondTerminal) else Ok(Some(response))
    ensures Classify(codec, m).BadJson? || Classify(codec, m).Failure? ==> ParseStep(codec, terminal, m).Err?
    ensures !Classify(codec, m).Terminal? && !Classify(codec, m).BadJson? && !Classify(codec, m).Failure? ==>
              ParseStep(codec, terminal, m) == Ok(terminal)
  {
    hide TerminalOf, ReadItemEvent, ReadPartEvent, KindOf, IsDone, FailureOf;
    if !IsDone(m) && codec.parse(m.data).Ok? {
      EventClass(codec, KindOf(codec.parse(m.data).value, m.event), codec.parse(m.data).value);
    }
  }

  /** An event about an item or a part is never taken for anything else. */
  lemma EventClass(codec: Codec, kind: string, value: Object)
    ensures var u := ReadItemEvent(codec, kind, value); u.Ignored? || u.Unnumbered? || u.Output?
    ensures forall ch :: var u := ReadPartEvent(codec, ch, kind, value); u.Unnumbered? || u.Output?
  {
    hide ReadItem, ReadPart, ReadLogs, TextMember, Int64;
  }

  predicate HoldsTerminal(codec: Codec, m: Message) {
    Classify(codec, m).Terminal?
  }

  ghost predicate OneAtMost(codec: Codec, messages: seq<Message>) {
    forall j, k | 0 <= j < k < |messages| && HoldsTerminal(codec, messages[j]) :: !HoldsTerminal(codec, messages[k])
  }

  lemma NoTerminals(codec: Codec, messages: seq<Message>)
    requires forall m | m in messages :: !HoldsTerminal(codec, m)
    ensures OneAtMost(codec, messages)
  {
    hide Classify;
    assert forall j | 0 <= j < |messages| :: messages[j] in messages;
  }

  lemma OneMore(codec: Codec, messages: seq<Message>, m: Message)
    ensures OneAtMost(codec, messages + [m]) <==>
              OneAtMost(codec, messages) && (HoldsTerminal(codec, m) ==> forall x | x in messages :: !HoldsTerminal(codec, x))
  {
    hide Classify;
    var longer := messages + [m];
    assert forall j | 0 <= j < |messages| :: longer[j] == messages[j] && messages[j] in messages;
    if OneAtMost(codec, longer) && HoldsTerminal(codec, m) {
      forall x | x in messages ensures !HoldsTerminal(codec, x) {
        var j :| 0 <= j < |messages| && messages[j] == x;
        assert longer[j] == x && longer[|messages|] == m;
      }
    }
  }

  /** The events are parsed without error if and only if none is faulty and at most one is terminal; what is
      found is then the response of that one. */
  lemma {:induction false} ParsedIff(codec: Codec, messages: seq<Message>)
    ensures ParseAll(codec, messages).Ok? <==> (forall m | m in messages :: !Faulty(codec, m)) && OneAtMost(codec, messages)
    ensures ParseAll(codec, messages).Ok? ==>
              && (ParseAll(codec, messages).value.None? <==> forall m | m in messages :: !HoldsTerminal(codec, m))
              && (forall m | m in messages && HoldsTerminal(codec, m) ::
                    ReadTerminal(codec, m).Ok? && ParseAll(codec, messages).value == Some(ReadTerminal(codec, m).value))
  {
    hide Classify, ParseStep, ReadTerminal, OneAtMost;
    if messages == [] {
      assert OneAtMost(codec, []) by {
        NoTerminals(codec, []);
      }
    } else {
      var shorter, m := messages[..|messages| - 1], messages[|messages| - 1];
      assert messages == shorter + [m];
      OneMore(codec, shorter, m);
      assert m in messages && forall x | x in shorter :: x in messages;
      assert forall x | x in messages :: x in shorter || x == m;
      ParsedIff(codec, shorter);
      if ParseAll(codec, shorter).Ok? {
        StepByClass(codec, ParseAll(codec, shorter).value, m);
      }
    }
  }

  predicate Ends(u: Upstream) {
    u.Terminal? || u.DoneMarker?
  }

  predicate Ended(us: seq<Upstream>) {
    exists u :: u in us && Ends(u)
  }

  /** Nothing but end markers follow a terminal event or an end marker. */
  ghost predicate InOrder(us: seq<Upstream>) {
    forall j, k | 0 <= j < k < |us| && Ends(us[j]) :: us[k].DoneMarker?
  }

  lemma EndedNext(us: seq<Upstream>, u: Upstream)
    ensures Ended(us + [u]) <==> Ended(us) || Ends(u)
  {
    hide Ends;
    var longer := us + [u];
    assert longer[|us|] == u;
    assert u in longer && forall x | x in us :: x in longer;
  }

  lemma InOrderNext(us: seq<Upstream>, u: Upstream)
    requires InOrder(us) && (Ended(us) ==> u.DoneMarker?)
    ensures InOrder(us + [u])
  {
    hide Ends;
    var longer := us + [u];
    forall j, k | 0 <= j < k < |longer| && Ends(longer[j]) ensures longer[k].DoneMarker? {
      assert longer[j] == us[j] && us[j] in us;
      assert k < |us| ==> longer[k] == us[k];
    }
  }

  /** What the delivery machine accepts to the end: no failure and no broken event, and after a terminal
      event or an end marker nothing but end markers. */
  lemma {:induction false} FedInOrder(buffered: bool, us: seq<Upstream>)
    requires Feed(buffered, us).err.None?
    ensures forall u | u in us :: !u.BadJson? && !u.Failure?
    ensures InOrder(us)
    ensures Feed(buffered, us).n.terminal || Feed(buffered, us).n.sentinel <==> Ended(us)
  {
    hide NaiveStep, InOrder, Ended;
    if us == [] {
      NothingEnded();
    } else {
      var shorter, u := us[..|us| - 1], us[|us| - 1];
      assert us == shorter + [u];
      FedInOrder(buffered, shorter);
      AcceptedStep(Feed(buffered, shorter).n, u);
      EndedNext(shorter, u);
      InOrderNext(shorter, u);
    }
  }

  lemma NothingEnded()
    ensures !Ended([]) && InOrder([])
  {
  }

  lemma AcceptedStep(n: Naive, u: Upstream)
    requires NaiveStep(n, u).err.None?
    ensures !u.BadJson? && !u.Failure? && (n.terminal || n.sentinel ==> u.DoneMarker?)
    ensures var next := NaiveStep(n, u).next;
            next.terminal || next.sentinel <==> n.terminal || n.sentinel || Ends(u)
  {
    hide Run, RunThen, Delivers, Progress, Numbered;
  }

  /** The machine and the parser read the same body. Once the machine has accepted it, parsing cannot fail
      for a broken event, a failure or a second terminal event any more: it yields the response of the one
      terminal event there is, or what is wrong with that. */
  lemma ParsedAfterFeed(codec: Codec, buffered: bool, messages: seq<Message>)
    requires Feed(buffered, Classified(codec, messages)).err.None?
    ensures OneAtMost(codec, messages)
    ensures (forall m | m in messages :: !HoldsTerminal(codec, m)) ==> ParseAll(codec, messages) == Ok(None)
    ensures forall j | 0 <= j < |messages| && HoldsTerminal(codec, messages[j]) ::
              && (ReadTerminal(codec, messages[j]).Ok? ==> ParseAll(codec, messages) == Ok(Some(ReadTerminal(codec, messages[j]).value)))
              && (ReadTerminal(codec, messages[j]).Err? ==> ParseAll(codec, messages) == Err(ReadTerminal(codec, messages[j]).error))
  {
    hide Feed, Classify, ReadTerminal, ParseStep, IsDone;
    var us := Classified(codec, messages);
    FedInOrder(buffered, us);
    forall m | m in messages ensures !Classify(codec, m).BadJson? && !Classify(codec, m).Failure? {
      var k :| 0 <= k < |messages| && messages[k] == m;
      assert us[k] in us;
    }
    forall j, k | 0 <= j < k < |messages| && HoldsTerminal(codec, messages[j]) ensures !HoldsTerminal(codec, messages[k]) {
      assert us[j].Terminal? && us[k].DoneMarker?;
    }
    ParsedInOrder(codec, messages);
    assert forall j | 0 <= j < |messages| :: messages[j] in messages;
  }

  lemma {:induction false} ParsedInOrder(codec: Codec, messages: seq<Message>)
    requires OneAtMost(codec, messages)
    requires forall m | m in messages :: !Classify(codec, m).BadJson? && !Classify(codec, m).Failure?
    ensures (forall m | m in messages :: !HoldsTerminal(codec, m)) ==> ParseAll(codec, messages) == Ok(None)
    ensures forall m | m in messages && HoldsTerminal(codec, m) ::
              && (ReadTerminal(codec, m).Ok? ==> ParseAll(codec, messages) == Ok(Some(ReadTerminal(codec, m).value)))
              && (ReadTerminal(codec, m).Err? ==> ParseAll(codec, messages) == Err(ReadTerminal(codec, m).error))
  {
    hide Classify, ParseStep, ReadTerminal, OneAtMost;
    if messages != [] {
      var shorter, last := messages[..|messages| - 1], messages[|messages| - 1];
      assert messages == shorter + [last];
      OneMore(codec, shorter, last);
      ParsedInOrder(codec, shorter);
      if ParseAll(codec, shorter).Ok? {
        StepByClass(codec, ParseAll(codec, shorter).value, last);
      }
    }
  }

  // ---------- a terminal response by its members ----------

  /** A member is a text that reads so, white space around it aside. */
  predicate Reads(value: Object, name: string, text: string) {
    name in value && value[name].Str? && TrimSpace(value[name].s) == text
  }

  /** A response that may be delivered: completed or cut short, with an output array. */
  predicate Deliverable(value: Object) {
    (Reads(value, "status", "completed") || Reads(value, "status", "incomplete")) && "output" in value && value["output"].Arr?
  }

  /** What is made of such a response: its own id and status, and one item per element of its output. */
  ghost predicate MadeOf(codec: Codec, value: Object, response: Response)
    requires "output" in value && value["output"].Arr?
  {
    && (if "id" in value && value["id"].Str? then response.id == TrimSpace(value["id"].s) else response.id == "")
    && Reads(value, "status", response.status)
    && |response.output| == |value["output"].items|
    && forall k | 0 <= k < |response.output| :: response.output[k] == ReadItem(codec, value["output"].items[k])
  }

  /** An event with the response of its own kind. */
  predicate RightTerminal(kind: string, value: Object) {
    && "response" in value && value["response"].Obj? && Deliverable(value["response"].members)
    && (kind == "response.completed" || kind == "response.incomplete")
    && Reads(value["response"].members, "status", if kind == "response.completed" then "completed" else "incomplete")
  }

  lemma NoText()
    ensures TrimSpace("") == ""
  {
  }

  lemma StatusReads(value: Object, name: string, text: string)
    requires text != ""
    ensures TextMember(value, name) == text <==> Reads(value, name, text)
  {
    hide TrimSpace;
    NoText();
  }

  /** A terminal object is accepted exactly when it may be delivered; one that says that it failed is reported
      as a failure of the upstream. */
  lemma ResponseIff(codec: Codec, value: Object)
    ensures TerminalResponse(codec, value).Ok? <==> Deliverable(value)
    ensures TerminalResponse(codec, value).Ok? ==> MadeOf(codec, value, TerminalResponse(codec, value).value)
    ensures Reads(value, "status", "failed") || Reads(value, "status", "cancelled") <==>
              TerminalResponse(codec, value) == Err(Reported(FailureOf(map["response" := Obj(value)])))
  {
    hide FailureOf, TrimSpace, ReadItem;
    StatusReads(value, "status", "completed");
    StatusReads(value, "status", "incomplete");
    StatusReads(value, "status", "failed");
    StatusReads(value, "status", "cancelled");
    NoText();
  }

  lemma TerminalIff(codec: Codec, kind: string, value: Object)
    requires IsTerminalKind(kind)
    ensures TerminalOf(codec, kind, value).Ok? <==> RightTerminal(kind, value)
    ensures TerminalOf(codec, kind, value).Ok? ==> MadeOf(codec, value["response"].members, TerminalOf(codec, kind, value).value)
    ensures TerminalOf(codec, kind, value) == Err(NoResponse) <==> "response" !in value || !value["response"].Obj?
  {
    hide TerminalResponse, MadeOf, Reads, IsTerminalKind;
    if "response" in value && value["response"].Obj? {
      var members := value["response"].members;
      ResponseIff(codec, members);
      NotNoResponse(codec, members);
      if TerminalResponse(codec, members).Ok? {
        StatusKept(codec, members);
        KindByStatus(kind, members, TerminalResponse(codec, members).value.status);
      }
    }
  }

  /** A terminal kind fits a status exactly when it names it. */
  lemma KindByStatus(kind: string, members: Object, status: string)
    requires IsTerminalKind(kind) && Reads(members, "status", status)
    ensures kind == "response.completed" || kind == "response.incomplete"
    ensures "response." + status == kind <==>
              Reads(members, "status", if kind == "response.completed" then "completed" else "incomplete")
  {
    hide TrimSpace;
    assert "response." + "completed" == "response.completed" && "response." + "incomplete" == "response.incomplete";
    SameStatus(status, "completed");
    SameStatus(status, "incomplete");
  }

  lemma NotNoResponse(codec: Codec, value: Object)
    ensures TerminalResponse(codec, value) != Err(NoResponse)
  {
  }

  lemma StatusKept(codec: Codec, value: Object)
    requires TerminalResponse(codec, value).Ok?
    ensures Reads(value, "status", TerminalResponse(codec, value).value.status)
  {
    hide TrimSpace, ReadItem;
    NoText();
  }

  lemma SameStatus(a: string, b: string)
    ensures "response." + a == "response." + b <==> a == b
  {
    assert ("response." + a)[9..] == a && ("response." + b)[9..] == b;
  }

  /** What the terminal event of a body holds. */
  predicate RightMessage(codec: Codec, m: Message) {
    && codec.parse(m.data).Ok?
    && RightTerminal(KindOf(codec.parse(m.data).value, m.event), codec.parse(m.data).value)
  }

  /** The response is made of the members of the event's response. */
  ghost predicate MessageMadeOf(codec: Codec, m: Message, response: Response) {
    RightMessage(codec, m) && MadeOf(codec, codec.parse(m.data).value["response"].members, response)
  }

  lemma MessageIff(codec: Codec, m: Message)
    requires HoldsTerminal(codec, m)
    ensures ReadTerminal(codec, m).Ok? <==> RightMessage(codec, m)
    ensures ReadTerminal(codec, m).Ok? ==> MessageMadeOf(codec, m, ReadTerminal(codec, m).value)
  {
    hide TerminalOf, RightTerminal, KindOf, ReadItemEvent, ReadPartEvent, IsDone, MadeOf;
    var value := codec.parse(m.data).value;
    EventClass(codec, KindOf(value, m.event), value);
    TerminalIff(codec, KindOf(value, m.event), value);
    RightIsObject(KindOf(value, m.event), value);
  }

  lemma RightIsObject(kind: string, value: Object)
    ensures RightTerminal(kind, value) ==>
              "response" in value && value["response"].Obj? && "output" in value["response"].members && value["response"].members["output"].Arr?
  {
  }

  /** An event body is parsed if and only if no event of it is broken or reports a failure, exactly one is
      terminal, and that one holds a response of its own kind that may be delivered; the result is made of
      this response's members. */
  lemma EventBodyParsed(codec: Codec, raw: string)
    requires TrimSpace(raw) != "" && TrimSpace(raw)[0] != '{'
    ensures var messages := Feeding.WholeBody(raw);
            Parsed(codec, raw).Ok? <==>
              && (forall m | m in messages :: !Classify(codec, m).BadJson? && !Classify(codec, m).Failure?)
              && OneAtMost(codec, messages)
              && (exists m :: m in messages && HoldsTerminal(codec, m))
              && (forall m | m in messages && HoldsTerminal(codec, m) :: RightMessage(codec, m))
    ensures Parsed(codec, raw).Ok? ==>
              forall m | m in Feeding.WholeBody(raw) && HoldsTerminal(codec, m) ::
                MessageMadeOf(codec, m, Parsed(codec, raw).value)
  {
    hide TrimSpace, Feeding.WholeBody, ParseAll, Classify, ReadTerminal, RightMessage, MessageMadeOf, OneAtMost;
    var messages := Feeding.WholeBody(raw);
    ParsedIff(codec, messages);
    forall m | m in messages && HoldsTerminal(codec, m)
      ensures ReadTerminal(codec, m).Ok? <==> RightMessage(codec, m)
      ensures ReadTerminal(codec, m).Ok? ==> MessageMadeOf(codec, m, ReadTerminal(codec, m).value)
    {
      MessageIff(codec, m);
    }
  }

  /** A JSON body is parsed if and only if it is one object that may be delivered. */
  lemma JsonBodyParsed(codec: Codec, raw: string)
    requires TrimSpace(raw) != "" && TrimSpace(raw)[0] == '{'
    ensures Parsed(codec, raw).Ok? <==> codec.parse(TrimSpace(raw)).Ok? && Deliverable(codec.parse(TrimSpace(raw)).value)
    ensures Parsed(codec, raw).Ok? ==> MadeOf(codec, codec.parse(TrimSpace(raw)).value, Parsed(codec, raw).value)
  {
    hide TrimSpace, TerminalResponse, MadeOf;
    if codec.parse(TrimSpace(raw)).Ok? {
      ResponseIff(codec, codec.parse(TrimSpace(raw)).value);
    }
  }

  /** The error of a body that is not parsed: a failure that the upstream reports keeps its class, every other
      defect is a bad gateway. */
  lemma BodyError(codec: Codec, raw: string)
    ensures Parsed(codec, raw).Err? && !Parsed(codec, raw).error.Reported? ==>
              FailureFor(Parsed(codec, raw).error) == Session.Api("invalid_upstream_response", 502)
    ensures Parsed(codec, raw).Err? && Parsed(codec, raw).error.Reported? ==>
              FailureFor(Parsed(codec, raw).error) == Parsed(codec, raw).error.failure
  {
    hide Parsed;
  }
}
