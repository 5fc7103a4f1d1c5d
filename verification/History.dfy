/** The client's history on its way upstream: `translateInputItems` of internal/basispoints/protocol.go. */
module History {
  import opened Responses
  import opened Catalog
  import opened Relay

  /** An input item by what the translation does with it. `rest` holds the members it only copies. */
  datatype Input =
    | CallInput(call: Item)
    | OutputInput(custom: bool, id: string, callId: string, name: string, namespace: string, rest: string)
    | ReasoningInput(encrypted: string, rest: string)
    | ReferenceInput(json: string)
    | CatalogInput(json: string)
    | OtherInput(json: string)
    | NoObject(json: string)

  predicate IsCall(item: Input) {
    item.CallInput? && item.call.ToolItem?
  }

  /** A call the client already recorded in its native form. */
  predicate IsNative(item: Input) {
    IsCall(item) && IsTransportName(KeyOf(item.call.namespace, item.call.name))
  }

  datatype Translated = Translated(items: seq<Input>, origins: set<string>)

  // ---------- the specification ----------

  /** Whether a call before position `n` has this id. */
  predicate Answers(items: seq<Input>, n: nat, callId: string)
    requires n <= |items|
  {
    callId != "" && exists k :: 0 <= k < n && IsCall(items[k]) && items[k].call.callId == callId
  }

  /** What becomes of the item at `k`; `generated` supplies ids for calls that have none. */
  function Piece(codec: Codec, items: seq<Input>, k: nat, generated: nat -> string): Result<seq<Input>, string>
    requires k < |items|
  {
    var item := items[k];
    if IsCall(item) then
      if IsNative(item) then Ok([item])
      else
        match Rebuild(codec, item.call, generated(k))
        case Err(reason) => Err(reason)
        case Ok(rebuilt) => Ok([CallInput(rebuilt)])
    else if item.OutputInput? then
      Ok([if Answers(items, k, item.callId) then
            OutputInput(false, FunctionItemId(item.callId), item.callId, "", "", item.rest)
          else item])
    else if item.ReasoningInput? then
      Ok(if item.encrypted != "" then [ReasoningInput(item.encrypted, "")] else [])
    else if item.OtherInput? then Ok([item])
    else Ok([])
  }

  /** The pieces of the first `n` items, or the first error among them. */
  function Pieces(codec: Codec, items: seq<Input>, n: nat, generated: nat -> string): Result<seq<Input>, string>
    requires n <= |items|
  {
    if n == 0 then Ok([])
    else
      match Pieces(codec, items, n - 1, generated)
      case Err(reason) => Err(reason)
      case Ok(before) =>
        match Piece(codec, items, n - 1, generated)
        case Err(reason) => Err(reason)
        case Ok(piece) => Ok(before + piece)
  }

  lemma {:induction false} ErrorStays(codec: Codec, items: seq<Input>, k: nat, n: nat, generated: nat -> string)
    requires k <= n <= |items| && Pieces(codec, items, k, generated).Err?
    ensures Pieces(codec, items, n, generated) == Pieces(codec, items, k, generated)
  {
    hide Piece;
    if k < n {
      ErrorStays(codec, items, k, n - 1, generated);
    }
  }

  /** One turn of the loop; `origins` holds the ids of the calls so far. */
  method TranslateItem(codec: Codec, items: seq<Input>, k: nat, generated: nat -> string, origins: set<string>)
    returns (piece: Result<seq<Input>, string>)
    requires k < |items| && forall id :: id in origins <==> Answers(items, k, id)
    ensures piece == Piece(codec, items, k, generated)
  {
    hide Rebuild, Answers;
    var item := items[k];
    if IsCall(item) {
      if IsNative(item) {
        return Ok([item]);
      }
      var rebuilt := Rebuild(codec, item.call, generated(k));
      if rebuilt.Err? {
        return Err(rebuilt.error);
      }
      return Ok([CallInput(rebuilt.value)]);
    }
    if item.OutputInput? {
      if item.callId in origins {
        return Ok([OutputInput(false, FunctionItemId(item.callId), item.callId, "", "", item.rest)]);
      }
      return Ok([item]);
    }
    if item.ReasoningInput? {
      if item.encrypted != "" {
        return Ok([ReasoningInput(item.encrypted, "")]);
      }
      return Ok([]);
    }
    piece := if item.OtherInput? then Ok([item]) else Ok([]);
  }

  /** Every item is translated by itself, in order; only a call's output looks back for its call. */
  method TranslateInputItems(codec: Codec, items: seq<Input>, generated: nat -> string) returns (result: Result<seq<Input>, string>)
    ensures result == Pieces(codec, items, |items|, generated)
  {
    hide Piece, Answers;
    var translated: seq<Input> := [];
    var origins: set<string> := {};
    NoneAnswers(items);
    for k := 0 to |items|
      invariant Pieces(codec, items, k, generated) == Ok(translated)
      invariant forall id :: id in origins <==> Answers(items, k, id)
    {
      AnswersNext(items, k);
      var piece := TranslateItem(codec, items, k, generated, origins);
      if piece.Err? {
        ErrorStays(codec, items, k + 1, |items|, generated);
        return Err(piece.error);
      }
      translated := translated + piece.value;
      if IsCall(items[k]) && items[k].call.callId != "" {
        origins := origins + {items[k].call.callId};
      }
    }
    result := Ok(translated);
  }

  lemma NoneAnswers(items: seq<Input>)
    ensures forall id :: !Answers(items, 0, id)
  {
  }

  lemma AnswersNext(items: seq<Input>, n: nat)
    requires n < |items|
    ensures forall id :: Answers(items, n + 1, id) <==>
              Answers(items, n, id) || (IsCall(items[n]) && items[n].call.callId == id && id != "")
  {
    forall id
      ensures Answers(items, n + 1, id) <==>
                (Answers(items, n, id) || (IsCall(items[n]) && items[n].call.callId == id && id != ""))
    {
      if Answers(items, n + 1, id) {
        var k :| 0 <= k < n + 1 && IsCall(items[k]) && items[k].call.callId == id;
        assert k == n || Answers(items, n, id);
      }
    }
  }

  // ---------- what the translation guarantees ----------

  lemma PieceRefusedIff(codec: Codec, items: seq<Input>, k: nat, generated: nat -> string)
    requires k < |items|
    ensures Piece(codec, items, k, generated).Err? <==>
              IsCall(items[k]) && !IsNative(items[k]) && HistoryPayload(codec, items[k].call).Err?
  {
    hide HistoryPayload, IsNative, Answers, Outer;
  }

  /** A history is refused exactly when a client's call has a payload that has no text: an input that is no
      string, or arguments that are neither a string nor an object. */
  lemma {:induction false} RefusedIff(codec: Codec, items: seq<Input>, n: nat, generated: nat -> string)
    requires n <= |items|
    ensures Pieces(codec, items, n, generated).Err? <==>
              exists k :: 0 <= k < n && IsCall(items[k]) && !IsNative(items[k]) && HistoryPayload(codec, items[k].call).Err?
  {
    hide Piece, HistoryPayload, IsNative;
    if n > 0 {
      RefusedIff(codec, items, n - 1, generated);
      PieceRefusedIff(codec, items, n - 1, generated);
    }
  }

  /** What may go upstream: no catalogs and no references, and only calls of the relay itself. */
  predicate Presentable(item: Input) {
    && !item.CatalogInput? && !item.ReferenceInput? && !item.NoObject?
    && (item.ReasoningInput? ==> item.encrypted != "" && item.rest == "")
    && (IsCall(item) ==> IsNative(item))
  }

  lemma PiecePresentable(codec: Codec, items: seq<Input>, k: nat, generated: nat -> string)
    requires k < |items| && Piece(codec, items, k, generated).Ok?
    ensures forall item | item in Piece(codec, items, k, generated).value :: Presentable(item)
  {
    hide Answers, Outer, HistoryPayload;
  }

  lemma {:induction false} OnlyPresentable(codec: Codec, items: seq<Input>, n: nat, generated: nat -> string)
    requires n <= |items| && Pieces(codec, items, n, generated).Ok?
    ensures forall item | item in Pieces(codec, items, n, generated).value :: Presentable(item)
  {
    hide Piece, Presentable;
    if n > 0 {
      OnlyPresentable(codec, items, n - 1, generated);
      PiecePresentable(codec, items, n - 1, generated);
    }
  }

  /** A client's call goes upstream as a relay call that leads back to the tool it names with its payload
      unchanged, and the later output of that call is marked as an output of the rebuilt call, under the
      same id; no tool catalog is needed for either. */
  lemma CallAndOutput(codec: Codec, items: seq<Input>, i: nat, j: nat, generated: nat -> string)
    requires i < j < |items| && IsCall(items[i]) && !IsNative(items[i]) && items[j].OutputInput?
    requires items[i].call.callId == items[j].callId != "" && HistoryPayload(codec, items[i].call).Ok?
    requires ReadsBack(codec, Outer(KeyOf(items[i].call.namespace, items[i].call.name), HistoryPayload(codec, items[i].call).value))
    ensures var key := KeyOf(items[i].call.namespace, items[i].call.name);
            var payload := HistoryPayload(codec, items[i].call).value;
            && Piece(codec, items, i, generated).Ok? && |Piece(codec, items, i, generated).value| == 1
            && var sent := Piece(codec, items, i, generated).value[0];
               && IsCall(sent) && sent.call.callId == items[j].callId
               && TransportEnvelope(codec, sent.call)
                  == (if Referable(key) then Ok(RelayCall(key, Str(payload), false)) else Err("references_invalid"))
               && Piece(codec, items, j, generated)
                  == Ok([OutputInput(false, sent.call.id, sent.call.callId, "", "", items[j].rest)])
  {
    EnvelopeOfRebuilt(codec, items[i].call, generated(i));
    assert Answers(items, j, items[j].callId);
    hide TransportEnvelope, Referable, Outer, KeyOf, HistoryPayload;
  }

  // ---------- nothing is lost ----------

  /** What must go upstream: every call and output, every reasoning with its ciphertext, and everything the
      translation does not know. */
  predicate Stays(item: Input) {
    || IsCall(item) || item.OutputInput? || item.OtherInput?
    || (item.ReasoningInput? && item.encrypted != "")
  }

  /** The positions of these among the first `n` items. */
  function Positions(items: seq<Input>, n: nat): seq<nat>
    requires n <= |items|
  {
    if n == 0 then [] else Positions(items, n - 1) + if Stays(items[n - 1]) then [n - 1] else []
  }

  lemma {:induction false} PositionsExact(items: seq<Input>, n: nat)
    requires n <= |items|
    ensures var p := Positions(items, n);
            && (forall j | 0 <= j < |p| :: p[j] < n && Stays(items[p[j]]))
            && (forall i, j | 0 <= i < j < |p| :: p[i] < p[j])
            && (forall k | 0 <= k < n && Stays(items[k]) :: k in p)
  {
    hide Stays;
    if n > 0 {
      PositionsExact(items, n - 1);
      assert Stays(items[n - 1]) ==> Positions(items, n)[|Positions(items, n - 1)|] == n - 1;
    }
  }

  /** A call before position `k` has this id. */
  predicate Called(items: seq<Input>, k: nat, callId: string)
    requires k <= |items|
  {
    exists j :: 0 <= j < k && IsCall(items[j]) && items[j].call.callId == callId
  }

  /** The item at `k` as it goes upstream. Native calls, outputs without an earlier call and unknown items are
      left as they are; a client's call keeps its call id, or gets the one made up for it. */
  predicate Becomes(items: seq<Input>, k: nat, generated: string, sent: Input)
    requires k < |items|
  {
    var item := items[k];
    if IsCall(item) then
      if IsNative(item) then sent == item
      else
        && IsCall(sent) && !sent.call.custom && sent.call.status == "completed"
        && sent.call.name == "run_officejs" && sent.call.namespace == ""
        && sent.call.callId == (if item.call.callId != "" then item.call.callId else generated)
        && sent.call.id == ItemIdOf(sent.call.callId)
    else if item.OutputInput? then
      if item.callId != "" && Called(items, k, item.callId) then
        && sent.OutputInput? && !sent.custom && sent.name == "" && sent.namespace == ""
        && sent.id == ItemIdOf(item.callId) && sent.callId == item.callId && sent.rest == item.rest
      else sent == item
    else if item.ReasoningInput? then sent == ReasoningInput(item.encrypted, "")
    else sent == item
  }

  /** The id of a function call item: its call id behind the prefix of such ids. */
  function ItemIdOf(callId: string): string {
    if callId == "" || "fc_" <= callId then callId else "fc_" + callId
  }

  lemma PieceBecomes(codec: Codec, items: seq<Input>, k: nat, generated: nat -> string)
    requires k < |items| && Piece(codec, items, k, generated).Ok?
    ensures var piece := Piece(codec, items, k, generated).value;
            if Stays(items[k]) then |piece| == 1 && Becomes(items, k, generated(k), piece[0]) else piece == []
  {
    hide HistoryPayload, Outer, KeyOf, IsTransportName;
  }

  /** Nothing is lost, nothing is made up, and the order stays: what goes upstream are, one by one, the items
      that must, each as it becomes. */
  lemma {:induction false} NothingLost(codec: Codec, items: seq<Input>, n: nat, generated: nat -> string)
    requires n <= |items| && Pieces(codec, items, n, generated).Ok?
    ensures var result, p := Pieces(codec, items, n, generated).value, Positions(items, n);
            |result| == |p| && forall j | 0 <= j < |p| :: p[j] < |items| && Becomes(items, p[j], generated(p[j]), result[j])
  {
    hide Piece, Stays, Becomes;
    if n > 0 {
      NothingLost(codec, items, n - 1, generated);
      PieceBecomes(codec, items, n - 1, generated);
    }
  }

  function Others(items: seq<Input>): seq<Input> {
    if items == [] then []
    else Others(items[..|items| - 1]) + if items[|items| - 1].OtherInput? then [items[|items| - 1]] else []
  }

  /** In particular every message and every other item that is no call, output, reasoning, reference or
      catalog goes upstream as it is, in order. */
  lemma {:induction false} OthersKept(codec: Codec, items: seq<Input>, n: nat, generated: nat -> string)
    requires n <= |items| && Pieces(codec, items, n, generated).Ok?
    ensures Others(Pieces(codec, items, n, generated).value) == Others(items[..n])
  {
    hide Piece, Becomes;
    if n > 0 {
      OthersKept(codec, items, n - 1, generated);
      PieceBecomes(codec, items, n - 1, generated);
      assert items[..n][..n - 1] == items[..n - 1];
      var before, piece := Pieces(codec, items, n - 1, generated).value, Piece(codec, items, n - 1, generated).value;
      assert before + [] == before;
      if Stays(items[n - 1]) {
        BecomesOther(items, n - 1, generated(n - 1), piece[0]);
        assert piece == [piece[0]] && (before + piece)[..|before + piece| - 1] == before;
      }
    }
  }

  lemma BecomesOther(items: seq<Input>, k: nat, generated: string, sent: Input)
    requires k < |items| && Becomes(items, k, generated, sent)
    ensures sent.OtherInput? <==> items[k].OtherInput?
    ensures items[k].OtherInput? ==> sent == items[k]
  {
  }
}
