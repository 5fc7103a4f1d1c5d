/** The transformation of a whole response: `transformResponseBodyStats` of
    internal/basispoints/protocol.go. Either every native call becomes a client call or nothing is changed. */
module Batch {
  import opened Responses
  import opened Catalog
  import opened Relay
  import opened Turn

  /** What a turn offers and demands. */
  datatype Terms = Terms(callable: map<string, ToolSpec>, declared: map<string, ToolSpec>, required: bool, parallel: Option<bool>)

  /** The terms of a request: its tool list, its `tool_choice` and its `parallel_tool_calls`. */
  function TermsOf(source: Source, choice: Choice, parallel: Option<bool>): Terms {
    Terms(CallableSpecs(source, choice), Specs(source), CallRequired(choice), parallel)
  }

  datatype Stats = Stats(calls: nat, legacy: nat)

  datatype Transformed = Transformed(output: seq<Item>, stats: Stats)

  // ---------- the specification ----------

  function Call(codec: Codec, terms: Terms, item: Item): Result<Extracted, string>
    requires item.ToolItem?
  {
    Extract(codec, item, terms.callable, terms.declared)
  }

  /** What is wrong with the item at `k`: it is no valid call, or repeats the id of an earlier one. */
  function Fault(codec: Codec, terms: Terms, output: seq<Item>, k: nat): Option<string>
    requires k < |output|
  {
    if !output[k].ToolItem? then None
    else if Call(codec, terms, output[k]).Err? then Some(Call(codec, terms, output[k]).error)
    else if exists j :: 0 <= j < k && output[j].ToolItem? && output[j].callId == output[k].callId then Some("duplicate_call_id")
    else None
  }

  function FirstFault(codec: Codec, terms: Terms, output: seq<Item>, n: nat): Option<string>
    requires n <= |output|
  {
    if n == 0 then None
    else if FirstFault(codec, terms, output, n - 1).Some? then FirstFault(codec, terms, output, n - 1)
    else Fault(codec, terms, output, n - 1)
  }

  /** An item of the transformed response. */
  function Replaced(codec: Codec, terms: Terms, item: Item): Item {
    if item.ToolItem? && Call(codec, terms, item).Ok? then Call(codec, terms, item).value.call else item
  }

  function AllReplaced(codec: Codec, terms: Terms, output: seq<Item>): seq<Item> {
    seq(|output|, k requires 0 <= k < |output| => Replaced(codec, terms, output[k]))
  }

  function Calls(output: seq<Item>, n: nat): nat
    requires n <= |output|
  {
    if n == 0 then 0 else Calls(output, n - 1) + (if output[n - 1].ToolItem? then 1 else 0)
  }

  function LegacyCalls(codec: Codec, terms: Terms, output: seq<Item>, n: nat): nat
    requires n <= |output|
  {
    if n == 0 then 0
    else
      var item := output[n - 1];
      LegacyCalls(codec, terms, output, n - 1)
      + (if item.ToolItem? && Call(codec, terms, item).Ok? && Call(codec, terms, item).value.legacy then 1 else 0)
  }

  function Transform(codec: Codec, terms: Terms, output: seq<Item>): Result<Transformed, string> {
    var n := |output|;
    match FirstFault(codec, terms, output, n)
    case Some(fault) => Err(fault)
    case None =>
      if Calls(output, n) == 0 && terms.required then Err("required_tool_choice_not_satisfied")
      else if Calls(output, n) > 1 && terms.parallel == Some(false) then Err("parallel_tool_calls_disabled")
      else
        Ok(Transformed(AllReplaced(codec, terms, output), Stats(Calls(output, n), LegacyCalls(codec, terms, output, n))))
  }

  // ---------- the loop ----------

  lemma {:induction false} FaultStays(codec: Codec, terms: Terms, output: seq<Item>, k: nat, n: nat)
    requires k <= n <= |output| && FirstFault(codec, terms, output, k).Some?
    ensures FirstFault(codec, terms, output, n) == FirstFault(codec, terms, output, k)
  {
    if k < n {
      FaultStays(codec, terms, output, k, n - 1);
    }
  }

  method TransformOutput(codec: Codec, terms: Terms, output: seq<Item>) returns (result: Result<Transformed, string>)
    ensures result == Transform(codec, terms, output)
  {
    hide Extract;
    var replaced: seq<Item> := [];
    var natives, legacy := 0, 0;
    var callIds: set<string> := {};
    for k := 0 to |output|
      invariant FirstFault(codec, terms, output, k).None?
      invariant |replaced| == k && forall j | 0 <= j < k :: replaced[j] == Replaced(codec, terms, output[j])
      invariant natives == Calls(output, k) && legacy == LegacyCalls(codec, terms, output, k)
      invariant forall id :: id in callIds <==> exists j :: 0 <= j < k && output[j].ToolItem? && output[j].callId == id
    {
      var item := output[k];
      if item.ToolItem? {
        var call := Extract(codec, item, terms.callable, terms.declared);
        if call.Err? {
          FaultStays(codec, terms, output, k + 1, |output|);
          return Err(call.error);
        }
        CallKeepsId(codec, terms, item);
        if call.value.call.callId in callIds {
          FaultStays(codec, terms, output, k + 1, |output|);
          return Err("duplicate_call_id");
        }
        callIds := callIds + {call.value.call.callId};
        replaced := replaced + [call.value.call];
        natives := natives + 1;
        if call.value.legacy {
          legacy := legacy + 1;
        }
      } else {
        replaced := replaced + [item];
      }
    }
    assert replaced == AllReplaced(codec, terms, output);
    if natives == 0 {
      if terms.required {
        return Err("required_tool_choice_not_satisfied");
      }
      NoCalls(output, |output|);
      assert replaced == output;
      NoLegacy(codec, terms, output, |output|);
      return Ok(Transformed(output, Stats(0, 0)));
    }
    if terms.parallel == Some(false) && natives > 1 {
      return Err("parallel_tool_calls_disabled");
    }
    result := Ok(Transformed(replaced, Stats(natives, legacy)));
  }

  lemma CallKeepsId(codec: Codec, terms: Terms, item: Item)
    requires item.ToolItem? && Call(codec, terms, item).Ok?
    ensures var call := Call(codec, terms, item).value.call; call.ToolItem? && call.callId == item.callId
  {
    hide TransportEnvelope, DecodeFunctionArguments, SchemaMatches;
  }

  lemma {:induction false} NoCalls(output: seq<Item>, n: nat)
    requires n <= |output| && Calls(output, n) == 0
    ensures forall k | 0 <= k < n :: !output[k].ToolItem?
  {
    if n > 0 {
      NoCalls(output, n - 1);
    }
  }

  lemma {:induction false} NoLegacy(codec: Codec, terms: Terms, output: seq<Item>, n: nat)
    requires n <= |output| && forall k | 0 <= k < n :: !output[k].ToolItem?
    ensures LegacyCalls(codec, terms, output, n) == 0
  {
    if n > 0 {
      NoLegacy(codec, terms, output, n - 1);
    }
  }

  // ---------- what a transformation guarantees ----------

  /** The items that make a batch acceptable, without any order of checks. */
  predicate ValidBatch(codec: Codec, terms: Terms, output: seq<Item>) {
    && (forall k | 0 <= k < |output| && output[k].ToolItem? :: Call(codec, terms, output[k]).Ok?)
    && (forall j, k | 0 <= j < k < |output| && output[j].ToolItem? && output[k].ToolItem? :: output[j].callId != output[k].callId)
    && (terms.required ==> exists k :: 0 <= k < |output| && output[k].ToolItem?)
    && (terms.parallel == Some(false) ==>
          forall j, k | 0 <= j < k < |output| :: !(output[j].ToolItem? && output[k].ToolItem?))
  }

  lemma {:induction false} NoFault(codec: Codec, terms: Terms, output: seq<Item>, n: nat)
    requires n <= |output|
    ensures FirstFault(codec, terms, output, n).None? <==>
              && (forall k | 0 <= k < n && output[k].ToolItem? :: Call(codec, terms, output[k]).Ok?)
              && (forall j, k | 0 <= j < k < n && output[j].ToolItem? && output[k].ToolItem? :: output[j].callId != output[k].callId)
  {
    hide Call;
    if n > 0 {
      NoFault(codec, terms, output, n - 1);
    }
  }

  lemma {:induction false} CallCount(output: seq<Item>, n: nat)
    requires n <= |output|
    ensures Calls(output, n) == 0 <==> forall k | 0 <= k < n :: !output[k].ToolItem?
    ensures Calls(output, n) <= 1 <==> forall j, k | 0 <= j < k < n :: !(output[j].ToolItem? && output[k].ToolItem?)
  {
    if n > 0 {
      CallCount(output, n - 1);
    }
  }

  /** A response is transformed exactly when all its calls are valid, their ids differ, a demanded call is
      there and no more calls are made than allowed. */
  lemma TransformedIff(codec: Codec, terms: Terms, output: seq<Item>)
    ensures Transform(codec, terms, output).Ok? <==> ValidBatch(codec, terms, output)
  {
    NoFault(codec, terms, output, |output|);
    CallCount(output, |output|);
    hide Call, FirstFault, Calls, LegacyCalls;
  }

  /** A transformed response keeps every item that is no call at its place, messages and reasoning among
      them; every call stands where its native call was, names a callable tool and has an id of its own. */
  lemma TransformedInPlace(codec: Codec, terms: Terms, output: seq<Item>)
    requires WellFormed(terms.callable)
    requires Transform(codec, terms, output).Ok?
    ensures var sent := Transform(codec, terms, output).value.output;
            && |sent| == |output|
            && KeepsStreamedItems(output, sent)
            && (forall k | 0 <= k < |output| && !output[k].ToolItem? :: sent[k] == output[k])
            && (forall k | 0 <= k < |output| && output[k].ToolItem? ::
                  && sent[k].ToolItem? && sent[k].callId == output[k].callId != ""
                  && KeyOf(sent[k].namespace, sent[k].name) in terms.callable
                  && terms.callable[KeyOf(sent[k].namespace, sent[k].name)].tool.Callable?
                  && terms.callable[KeyOf(sent[k].namespace, sent[k].name)].tool.custom == sent[k].custom)
            && (forall j, k | 0 <= j < k < |sent| && sent[j].ToolItem? && sent[k].ToolItem? :: sent[j].callId != sent[k].callId)
  {
    TransformedIff(codec, terms, output);
    var sent := Transform(codec, terms, output).value.output;
    forall k | 0 <= k < |output|
      ensures if output[k].ToolItem? then
                && sent[k].ToolItem? && sent[k].callId == output[k].callId != ""
                && KeyOf(sent[k].namespace, sent[k].name) in terms.callable
                && terms.callable[KeyOf(sent[k].namespace, sent[k].name)].tool.Callable?
                && terms.callable[KeyOf(sent[k].namespace, sent[k].name)].tool.custom == sent[k].custom
              else sent[k] == output[k]
    {
      assert sent[k] == Replaced(codec, terms, output[k]);
      if output[k].ToolItem? {
        ExtractedIsCallable(codec, output[k], terms.callable, terms.declared);
      }
    }
    hide Extract, Transform, KeyOf, Referable, TransportEnvelope;
  }

  /** The terms of any request have a well-formed catalog, so what holds of transformed batches holds of all
      transformed responses. */
  lemma TermsAreFormed(source: Source, choice: Choice, parallel: Option<bool>)
    ensures var terms := TermsOf(source, choice, parallel);
            && WellFormed(terms.callable)
            && (forall key | key in terms.callable :: key in terms.declared && terms.callable[key] == terms.declared[key])
  {
    CallableFormed(source, choice);
    hide Specs, Formed;
  }

  /** `transformResponseBodyStats` on the source of a request: catalogs first, then the batch. */
  method TransformResponse(codec: Codec, source: Source, choice: Choice, parallel: Option<bool>, output: seq<Item>)
    returns (result: Result<Transformed, string>)
    ensures result == Transform(codec, TermsOf(source, choice, parallel), output)
  {
    hide Specs, CallableSpecs, Transform;
    var callable := CallableClientToolSpecs(source, choice);
    var declared := ClientToolSpecs(source);
    result := TransformOutput(codec, Terms(callable, declared, CallRequired(choice), parallel), output);
  }

  /** What a request's terms are made of: the callable part and the whole of its catalog, and its demands. */
  lemma TermsExactly(source: Source, choice: Choice, parallel: Option<bool>)
    ensures var terms := TermsOf(source, choice, parallel);
            && (forall key :: key in terms.callable <==> key in Specs(source) && IsCallable(source, choice, key))
            && terms.declared == Specs(source) && terms.required == CallRequired(choice) && terms.parallel == parallel
  {
    hide Specs, IsCallable;
    CallableAreDeclared(source, choice);
  }

  lemma CallableAreDeclared(source: Source, choice: Choice)
    ensures forall key :: key in CallableSpecs(source, choice) <==> key in Specs(source) && IsCallable(source, choice, key)
  {
    hide Specs;
  }

  /** The positions of the calls among the first `n` items, and of those in the older form. */
  function CallsAt(output: seq<Item>, n: nat): set<int>
    requires n <= |output|
  {
    set k | 0 <= k < n && output[k].ToolItem?
  }

  function LegacyAt(codec: Codec, output: seq<Item>, n: nat): set<int>
    requires n <= |output|
  {
    set k | 0 <= k < n && output[k].ToolItem? && IsLegacy(codec, output[k])
  }

  predicate IsLegacy(codec: Codec, item: Item)
    requires item.ToolItem?
  {
    TransportEnvelope(codec, item).Ok? && TransportEnvelope(codec, item).value.legacy
  }

  /** The counts of a transformed batch are those of its calls and of its calls in the older form. */
  lemma {:induction false} CallsExact(output: seq<Item>, n: nat)
    requires n <= |output|
    ensures Calls(output, n) == |CallsAt(output, n)|
  {
    if n > 0 {
      CallsExact(output, n - 1);
      assert CallsAt(output, n) == CallsAt(output, n - 1) + if output[n - 1].ToolItem? then {n - 1} else {};
    }
  }

  lemma {:induction false} LegacyExact(codec: Codec, terms: Terms, output: seq<Item>, n: nat)
    requires n <= |output| && forall k | 0 <= k < n && output[k].ToolItem? :: Call(codec, terms, output[k]).Ok?
    ensures LegacyCalls(codec, terms, output, n) == |LegacyAt(codec, output, n)|
  {
    hide Call, IsLegacy;
    if n > 0 {
      LegacyExact(codec, terms, output, n - 1);
      var item := output[n - 1];
      assert LegacyAt(codec, output, n)
             == LegacyAt(codec, output, n - 1) + if item.ToolItem? && IsLegacy(codec, item) then {n - 1} else {};
      if item.ToolItem? {
        LegacyKept(codec, terms, item);
      }
    }
  }

  lemma StatsExact(codec: Codec, terms: Terms, output: seq<Item>)
    requires Transform(codec, terms, output).Ok?
    ensures Transform(codec, terms, output).value.stats == Stats(|CallsAt(output, |output|)|, |LegacyAt(codec, output, |output|)|)
  {
    hide Call, IsLegacy, Calls, LegacyCalls, CallsAt, LegacyAt, FirstFault;
    TransformedIff(codec, terms, output);
    CallsExact(output, |output|);
    LegacyExact(codec, terms, output, |output|);
  }

  lemma LegacyKept(codec: Codec, terms: Terms, item: Item)
    requires item.ToolItem? && Call(codec, terms, item).Ok?
    ensures Call(codec, terms, item).value.legacy == IsLegacy(codec, item)
  {
    hide TransportEnvelope, ExtractCall;
  }
}
