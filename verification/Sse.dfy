/** Server-sent events: the line decoder of internal/basispoints/upstream.go and the writer of protocol.go.
    The decoder handles the `event` and `data` fields of section 9.2.6 of the HTML Living Standard, with LF
    or CRLF line ends. */
module Sse {
  import opened Space

  /** One dispatched event: its name and its data. */
  datatype Message = Message(event: string, data: string)

  // ---------- decoding ----------

  /** Position of the first line feed, or the length when there is none. */
  function LineEnd(t: string): (n: nat)
    ensures n <= |t|
    ensures n < |t| ==> t[n] == '\n'
    ensures forall k | 0 <= k < n :: t[k] != '\n'
  {
    if t == "" || t[0] == '\n' then 0 else 1 + LineEnd(t[1..])
  }

  function StripReturn(line: string): string {
    if line != "" && line[|line| - 1] == '\r' then line[..|line| - 1] else line
  }

  function StripSpace(value: string): string {
    if value != "" && value[0] == ' ' then value[1..] else value
  }

  function Join(lines: seq<string>): string {
    if lines == [] then ""
    else if |lines| == 1 then lines[0]
    else lines[0] + "\n" + Join(lines[1..])
  }

  /** The state between two lines: the data lines and the event name collected so far. */
  datatype Pending = Pending(data: seq<string>, event: string)

  const NOTHING := Pending([], "")

  function TakeLine(p: Pending, line: string): Pending {
    Pending(if "data:" <= line then p.data + [StripSpace(line[5..])] else p.data,
            if "event:" <= line then TrimSpace(line[6..]) else p.event)
  }

  function Dispatch(p: Pending): seq<Message> {
    if p.data == [] then [] else [Message(p.event, Join(p.data))]
  }

  /** What a text yields: the events of its complete lines, the state after them and the unfinished line. */
  datatype Scanned = Scanned(messages: seq<Message>, pending: Pending, rest: string)

  function Scan(p: Pending, text: string): Scanned
    decreases |text|
  {
    var n := LineEnd(text);
    if n == |text| then Scanned([], p, text)
    else
      var line := StripReturn(text[..n]);
      if line == "" then
        var s := Scan(NOTHING, text[n + 1..]);
        s.(messages := Dispatch(p) + s.messages)
      else Scan(TakeLine(p, line), text[n + 1..])
  }

  lemma {:induction false} LineEndAt(t: string, n: nat)
    requires n < |t| && t[n] == '\n' && forall k | 0 <= k < n :: t[k] != '\n'
    ensures LineEnd(t) == n
  {
    if n > 0 {
      LineEndAt(t[1..], n - 1);
    }
  }

  /** One line at a time. */
  lemma ScanFirst(p: Pending, line: string, rest: string)
    requires '\n' !in line
    ensures Scan(p, line + "\n" + rest) ==
              if StripReturn(line) == "" then
                var s := Scan(NOTHING, rest); s.(messages := Dispatch(p) + s.messages)
              else Scan(TakeLine(p, StripReturn(line)), rest)
  {
    hide TakeLine, Dispatch, StripReturn;
    var text := line + "\n" + rest;
    assert text[|line|] == '\n' && forall k | 0 <= k < |line| :: text[k] == line[k] && line[k] in line;
    LineEndAt(text, |line|);
    assert text[..|line|] == line && text[|line| + 1..] == rest;
  }

  lemma ScanPartial(p: Pending, text: string)
    requires '\n' !in text
    ensures Scan(p, text) == Scanned([], p, text)
  {
    hide TakeLine, Dispatch, StripReturn;
  }

  /** Decoding does not depend on where the text is cut. */
  lemma {:induction false} ScanAppend(p: Pending, a: string, b: string)
    ensures Scan(p, a + b)
            == var s := Scan(p, a);
               var t := Scan(s.pending, s.rest + b);
               t.(messages := s.messages + t.messages)
    decreases |a|
  {
    hide Scan, LineEnd, TakeLine, Dispatch, StripReturn;
    var n := LineEnd(a);
    if n == |a| {
      ScanPartial(p, a);
      assert [] + Scan(p, a + b).messages == Scan(p, a + b).messages;
    } else {
      var line, rest := a[..n], a[n + 1..];
      assert a == line + "\n" + rest && a + b == line + "\n" + (rest + b);
      ScanFirst(p, line, rest);
      ScanFirst(p, line, rest + b);
      if StripReturn(line) == "" {
        ScanAppend(NOTHING, rest, b);
        var s := Scan(NOTHING, rest);
        var t := Scan(s.pending, s.rest + b);
        assert Dispatch(p) + (s.messages + t.messages) == (Dispatch(p) + s.messages) + t.messages;
      } else {
        ScanAppend(TakeLine(p, StripReturn(line)), rest, b);
      }
    }
  }

  /** What a consumer that accepts `accept` messages and fails on the next one gets to see. */
  function Cut(messages: seq<Message>, accept: nat): seq<Message> {
    if |messages| <= accept then messages else messages[..accept + 1]
  }

  class SseDecoder {
    var buffer: string
    var data: seq<string>
    var event: string

    constructor ()
      ensures buffer == "" && Collected() == NOTHING
    {
      buffer, data, event := "", [], "";
    }

    function Collected(): Pending
      reads this
    {
      Pending(data, event)
    }

    /** Decodes one more chunk. `accept` stands for the callback: it takes that many messages and fails
        on the next one, which ends the call with the buffer unconsumed. */
    method Feed(chunk: string, accept: nat) returns (emitted: seq<Message>, ok: bool)
      modifies this
      ensures var s := Scan(old(Collected()), old(buffer) + chunk);
              && emitted == Cut(s.messages, accept)
              && ok == (|s.messages| <= accept)
              && (ok ==> Scanned(s.messages, Collected(), buffer) == s)
              && (!ok ==> buffer == old(buffer) + chunk)
    {
      hide Dispatch, TakeLine, StripReturn, Scan, LineEnd;
      buffer := buffer + chunk;
      var text := buffer;
      emitted := [];
      ghost var whole := Scan(old(Collected()), text);
      while true
        invariant buffer == old(buffer) + chunk
        invariant |emitted| <= accept
        invariant var s := Scan(Collected(), text);
                  whole == s.(messages := emitted + s.messages)
        decreases |text|
      {
        var index := LineEnd(text);
        if index == |text| {
          ScanPartial(Collected(), text);
          buffer := text;
          return emitted, true;
        }
        var line := StripReturn(text[..index]);
        ghost var before := Scan(Collected(), text);
        assert text == text[..index] + "\n" + text[index + 1..];
        ScanFirst(Collected(), text[..index], text[index + 1..]);
        text := text[index + 1..];
        if line == "" {
          var messages := Complete();
          assert before.messages == messages + Scan(NOTHING, text).messages;
          assert whole.messages == (emitted + messages) + Scan(NOTHING, text).messages;
          if |emitted| == accept && |messages| > 0 {
            emitted := emitted + messages;
            assert whole.messages[..accept + 1] == emitted;
            return emitted, false;
          }
          emitted := emitted + messages;
          data := [];
          event := "";
        } else {
          Take(line);
        }
      }
    }

    /** The event a blank line dispatches, if any data has been collected. */
    method Complete() returns (messages: seq<Message>)
      ensures messages == Dispatch(Collected()) && |messages| <= 1
    {
      messages := [];
      if |data| > 0 {
        messages := [Message(event, Join(data))];
      }
    }

    /** Collects one field line. */
    method Take(line: string)
      modifies this`data, this`event
      ensures Collected() == TakeLine(old(Collected()), line)
    {
      if "event:" <= line {
        event := TrimSpace(line[6..]);
      }
      if "data:" <= line {
        data := data + [StripSpace(line[5..])];
      }
    }
  }

  // ---------- writing ----------

  function WriteOne(m: Message): string {
    "event: " + m.event + "\ndata: " + m.data + "\n\n"
  }

  /** `renderSSE` on already encoded event objects. */
  function Render(messages: seq<Message>, done: bool): string {
    if messages == [] then (if done then "data: [DONE]\n\n" else "")
    else WriteOne(messages[0]) + Render(messages[1..], done)
  }

  lemma RenderNext(written: string, messages: seq<Message>, done: bool)
    requires messages != []
    ensures written + Render(messages, done) == (written + WriteOne(messages[0])) + Render(messages[1..], done)
  {
    hide WriteOne;
  }

  method RenderSSE(messages: seq<Message>, done: bool) returns (payload: string)
    ensures payload == Render(messages, done)
  {
    hide WriteOne;
    payload := "";
    assert messages[0..] == messages && "" + Render(messages, done) == Render(messages, done);
    for n := 0 to |messages|
      invariant payload + Render(messages[n..], done) == Render(messages, done)
    {
      RenderNext(payload, messages[n..], done);
      assert messages[n..][1..] == messages[n + 1..];
      payload := payload + WriteOne(messages[n]);
    }
    if done {
      payload := payload + "data: [DONE]\n\n";
    }
  }

  /** Names without surrounding white space or line feeds, data without line ends. */
  predicate Writable(m: Message) {
    && TrimSpace(m.event) == m.event
    && '\n' !in m.event
    && '\n' !in m.data && '\r' !in m.data
  }

  lemma ScanLine(p: Pending, line: string, rest: string)
    requires '\n' !in line && line != "" && line[|line| - 1] != '\r'
    ensures Scan(p, line + "\n" + rest) == Scan(TakeLine(p, line), rest)
  {
    var text := line + "\n" + rest;
    assert text[|line|] == '\n';
    assert forall k | 0 <= k < |line| :: text[k] == line[k] && line[k] in line;
    LineEndAt(text, |line|);
    assert text[..|line|] == line;
    assert text[|line| + 1..] == rest;
  }

  lemma ScanBlank(p: Pending, rest: string)
    ensures Scan(p, "\n" + rest) == var s := Scan(NOTHING, rest); s.(messages := Dispatch(p) + s.messages)
  {
    var text := "\n" + rest;
    LineEndAt(text, 0);
    assert text[..0] == "";
    assert text[1..] == rest;
  }

  /** A trimmed text does not end in a carriage return. */
  lemma TrimmedEnd(s: string)
    requires TrimSpace(s) == s && s != ""
    ensures s[|s| - 1] != '\r'
  {
    TrimLeftSuffix(s);
    TrimRightShorter(TrimLeft(s));
    assert BlankEnd(s) == 0;
    assert s[|s| - 1..][0] == s[|s| - 1];
  }

  lemma TrimPrefixedSpace(s: string)
    ensures TrimSpace(" " + s) == TrimSpace(s)
  {
    assert (" " + s)[1..] == s;
  }

  /** Writing an event and decoding it gives it back, whatever follows. */
  lemma ScanWritten(m: Message, rest: string)
    requires Writable(m)
    ensures Scan(NOTHING, WriteOne(m) + rest) == var s := Scan(NOTHING, rest); s.(messages := [m] + s.messages)
  {
    var name, data := "event: " + m.event, "data: " + m.data;
    assert WriteOne(m) + rest == name + "\n" + (data + "\n" + ("\n" + rest));
    NameLine(m.event);
    DataLine(m.data, m.event);
    hide TakeLine, Writable, Scan;
    ScanLine(NOTHING, name, data + "\n" + ("\n" + rest));
    ScanLine(Pending([], m.event), data, "\n" + rest);
    ScanBlank(Pending([m.data], m.event), rest);
  }

  lemma NameLine(event: string)
    requires TrimSpace(event) == event && '\n' !in event
    ensures var line := "event: " + event;
            '\n' !in line && line[|line| - 1] != '\r' && TakeLine(NOTHING, line) == Pending([], event)
  {
    hide TrimSpace, TrimLeft, TrimRight, BlankAt, BlankEnd;
    var line := "event: " + event;
    assert line[..6] == "event:" && line[6..] == " " + event;
    assert line[0] == 'e' && !("data:" <= line);
    TrimPrefixedSpace(event);
    if event == "" {
      assert line == "event: ";
    } else {
      TrimmedEnd(event);
      assert line[|line| - 1] == event[|event| - 1];
    }
  }

  lemma DataLine(data: string, event: string)
    requires '\n' !in data && '\r' !in data
    ensures var line := "data: " + data;
            '\n' !in line && line[|line| - 1] != '\r' && TakeLine(Pending([], event), line) == Pending([data], event)
  {
    hide TrimSpace, TrimLeft, TrimRight, BlankAt, BlankEnd;
    var line := "data: " + data;
    assert line[..5] == "data:" && line[5..] == " " + data;
    assert (" " + data)[1..] == data;
    assert line[0] == 'd' && !("event:" <= line);
    if data != "" {
      assert line[|line| - 1] == data[|data| - 1] && data[|data| - 1] in data;
    }
    assert [] + [data] == [data];
  }

  /** Decoding what has been written returns the same events in order, and the end marker last. */
  lemma {:induction false} RoundTrip(messages: seq<Message>, done: bool)
    requires forall m | m in messages :: Writable(m)
    ensures Scan(NOTHING, Render(messages, done))
            == Scanned(messages + (if done then [Message("", "[DONE]")] else []), NOTHING, "")
  {
    hide Scan, TakeLine, Writable, WriteOne;
    if messages == [] {
      EndMarker(done);
    } else {
      ScanWritten(messages[0], Render(messages[1..], done));
      RoundTrip(messages[1..], done);
      assert messages == [messages[0]] + messages[1..];
    }
  }

  lemma EndMarker(done: bool)
    ensures Scan(NOTHING, Render([], done)) == Scanned(if done then [Message("", "[DONE]")] else [], NOTHING, "")
  {
    hide Scan, TrimSpace, TakeLine;
    ScanNothing();
    if done {
      assert Render([], true) == "data: [DONE]" + "\n" + ("\n" + "");
      DataLine("[DONE]", "");
      assert "data: " + "[DONE]" == "data: [DONE]";
      ScanLine(NOTHING, "data: [DONE]", "\n" + "");
      ScanBlank(Pending(["[DONE]"], ""), "");
      assert Dispatch(Pending(["[DONE]"], "")) + [] == [Message("", "[DONE]")];
    } else {
      assert Render([], false) == "";
    }
  }

  lemma ScanNothing()
    ensures Scan(NOTHING, "") == Scanned([], NOTHING, "")
  {
  }

  // ---------- any block of fields ----------

  /** A line of an event stream: a piece of data, with or without the space behind the colon, the name of the
      event, or anything else. */
  datatype Field = DataField(value: string, spaced: bool) | NameField(value: string) | OtherField(text: string)

  function FieldLine(f: Field): string {
    match f
    case DataField(value, spaced) => if spaced then "data: " + value else "data:" + value
    case NameField(value) => "event:" + value
    case OtherField(text) => text
  }

  predicate FieldOk(f: Field) {
    && '\n' !in FieldLine(f) && FieldLine(f) != "" && FieldLine(f)[|FieldLine(f)| - 1] != '\r'
    && match f
       case DataField(value, spaced) => spaced || !(" " <= value)
       case NameField(_) => true
       case OtherField(text) => !("data:" <= text) && !("event:" <= text)
  }

  function LineBreak(crlf: bool): string {
    if crlf then "\r\n" else "\n"
  }

  function FieldsText(fields: seq<Field>, crlf: bool): string {
    if fields == [] then "" else FieldLine(fields[0]) + LineBreak(crlf) + FieldsText(fields[1..], crlf)
  }

  /** The pieces of data of a block, in order. */
  function DataOf(fields: seq<Field>): seq<string> {
    if fields == [] then [] else (if fields[0].DataField? then [fields[0].value] else []) + DataOf(fields[1..])
  }

  /** The last name of a block, or the one from before. */
  function NameFrom(before: string, fields: seq<Field>): string
    decreases |fields|
  {
    if fields == [] then before else NameFrom(if fields[0].NameField? then TrimSpace(fields[0].value) else before, fields[1..])
  }

  /** Lines as one text, with line feeds between them. */
  function Joined(values: seq<string>): string {
    if values == [] then "" else values[0] + Following(values[1..])
  }

  function Following(values: seq<string>): string {
    if values == [] then "" else "\n" + values[0] + Following(values[1..])
  }

  lemma {:induction false} JoinIsLines(values: seq<string>)
    ensures Join(values) == Joined(values)
  {
    if |values| == 1 {
      assert values[0] + "" == values[0];
    } else if |values| > 1 {
      JoinIsLines(values[1..]);
      assert Following(values[1..]) == "\n" + values[1] + Following(values[1..][1..]);
      assert values[0] + "\n" + Joined(values[1..]) == values[0] + ("\n" + values[1] + Following(values[1..][1..]));
    }
  }

  /** A line is read without its line break, whichever it is. */
  lemma AnyBreak(p: Pending, line: string, crlf: bool, rest: string)
    requires '\n' !in line && (line != "" ==> line[|line| - 1] != '\r')
    ensures Scan(p, line + LineBreak(crlf) + rest) ==
              if line == "" then var s := Scan(NOTHING, rest); s.(messages := Dispatch(p) + s.messages)
              else Scan(TakeLine(p, line), rest)
  {
    hide Scan, TakeLine, Dispatch;
    var read := if crlf then line + "\r" else line;
    assert line + LineBreak(crlf) + rest == read + "\n" + rest;
    assert crlf ==> read[..|read| - 1] == line;
    ScanFirst(p, read, rest);
  }

  lemma FieldTaken(p: Pending, f: Field)
    requires FieldOk(f)
    ensures TakeLine(p, FieldLine(f)) == match f
              case DataField(value, _) => Pending(p.data + [value], p.event)
              case NameField(value) => Pending(p.data, TrimSpace(value))
              case OtherField(_) => p
  {
    hide TrimSpace;
    var line := FieldLine(f);
    if f.DataField? {
      assert line[0] == 'd' && line[..5] == "data:";
      if f.spaced {
        assert line[5..] == " " + f.value && (" " + f.value)[1..] == f.value;
      } else {
        assert line[5..] == f.value;
      }
    } else if f.NameField? {
      assert line[0] == 'e' && line[..6] == "event:" && line[6..] == f.value;
    }
  }

  lemma {:induction false} FieldsTaken(p: Pending, fields: seq<Field>, crlf: bool, rest: string)
    requires forall f | f in fields :: FieldOk(f)
    ensures Scan(p, FieldsText(fields, crlf) + rest) == Scan(Pending(p.data + DataOf(fields), NameFrom(p.event, fields)), rest)
    decreases |fields|
  {
    hide Scan, TakeLine, FieldLine, FieldOk, TrimSpace, LineBreak;
    if fields == [] {
      assert "" + rest == rest && p.data + [] == p.data;
    } else {
      var f, more := fields[0], FieldsText(fields[1..], crlf);
      assert f in fields && forall x | x in fields[1..] :: x in fields;
      assert FieldLine(f) + LineBreak(crlf) + more + rest == FieldLine(f) + LineBreak(crlf) + (more + rest);
      FieldOkLine(f);
      AnyBreak(p, FieldLine(f), crlf, more + rest);
      FieldTaken(p, f);
      var q := TakeLine(p, FieldLine(f));
      FieldsTaken(q, fields[1..], crlf, rest);
      assert f.DataField? ==> p.data + [f.value] + DataOf(fields[1..]) == p.data + ([f.value] + DataOf(fields[1..]));
      assert [] + DataOf(fields[1..]) == DataOf(fields[1..]);
    }
  }

  lemma FieldOkLine(f: Field)
    requires FieldOk(f)
    ensures '\n' !in FieldLine(f) && FieldLine(f) != "" && FieldLine(f)[|FieldLine(f)| - 1] != '\r'
  {
  }

  /** Any block of fields and the blank line after it: one event under the last name, its data the pieces with
      line feeds between them, or nothing when there is no data; and nothing of it is left for the next
      block. */
  lemma BlockDecoded(fields: seq<Field>, crlf: bool, rest: string)
    requires forall f | f in fields :: FieldOk(f)
    ensures Scan(NOTHING, FieldsText(fields, crlf) + LineBreak(crlf) + rest)
            == var s := Scan(NOTHING, rest);
               var events := if DataOf(fields) == [] then [] else [Message(NameFrom("", fields), Joined(DataOf(fields)))];
               s.(messages := events + s.messages)
  {
    hide Scan, FieldsText, DataOf, NameFrom, LineBreak, FieldOk;
    var values, name := DataOf(fields), NameFrom("", fields);
    assert [] + values == values;
    assert FieldsText(fields, crlf) + LineBreak(crlf) + rest == FieldsText(fields, crlf) + (LineBreak(crlf) + rest);
    FieldsTaken(NOTHING, fields, crlf, LineBreak(crlf) + rest);
    assert "" + LineBreak(crlf) + rest == LineBreak(crlf) + rest;
    AnyBreak(Pending(values, name), "", crlf, rest);
    JoinIsLines(values);
  }
}
