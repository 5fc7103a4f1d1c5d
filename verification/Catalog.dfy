/** The client's tool catalog: `iterToolValues`, `clientToolSpecs`, `callableClientToolSpecs` and
    `clientToolCallRequired` of internal/basispoints/protocol.go. */
module Catalog {
  import opened Responses
  import opened Space

  /** One declaration; `schema` is the parameter schema, empty when there is none. */
  datatype Tool =
    | Callable(custom: bool, name: string, schema: map<string, Json>, rest: string)
    | Group(name: string, tools: seq<Tool>)
    | Foreign(json: string)

  /** A usable declaration under its key, with its trimmed name. */
  datatype ToolSpec = ToolSpec(key: string, name: string, namespace: string, tool: Tool)

  function KeyOf(namespace: string, name: string): string {
    if namespace != "" then namespace + "." + name else name
  }

  /** The declarations in the order in which they are visited; a nested group has its own name only. */
  function Declarations(tools: seq<Tool>, namespace: string): seq<ToolSpec> {
    if tools == [] then []
    else DeclaredBy(tools[0], namespace) + Declarations(tools[1..], namespace)
  }

  function DeclaredBy(tool: Tool, namespace: string): seq<ToolSpec> {
    match tool
    case Callable(_, raw, _, _) =>
      var name := TrimSpace(raw);
      if name != "" then [ToolSpec(KeyOf(namespace, name), name, namespace, tool)] else []
    case Group(raw, tools) => if TrimSpace(raw) != "" then Declarations(tools, TrimSpace(raw)) else []
    case Foreign(_) => []
  }

  datatype Collected = Collected(specs: map<string, ToolSpec>, conflicts: set<string>)

  const NOTHING := Collected(map[], {})

  /** A catalog at the top level takes the last declaration of a key; otherwise two different ones drop the
      key for good. */
  function Add(c: Collected, spec: ToolSpec, topLevel: bool): Collected {
    if topLevel then c.(specs := c.specs[spec.key := spec])
    else if spec.key in c.conflicts then c
    else if spec.key in c.specs && c.specs[spec.key].tool != spec.tool then
      Collected(c.specs - {spec.key}, c.conflicts + {spec.key})
    else c.(specs := c.specs[spec.key := spec])
  }

  function AddAll(c: Collected, specs: seq<ToolSpec>, topLevel: bool): Collected {
    if specs == [] then c else Add(AddAll(c, specs[..|specs| - 1], topLevel), specs[|specs| - 1], topLevel)
  }

  lemma {:induction false} AddAllAppend(c: Collected, a: seq<ToolSpec>, b: seq<ToolSpec>, topLevel: bool)
    ensures AddAll(c, a + b, topLevel) == AddAll(AddAll(c, a, topLevel), b, topLevel)
  {
    if b == [] {
      assert a + b == a;
    } else {
      assert (a + b)[..|a + b| - 1] == a + b[..|b| - 1];
      AddAllAppend(c, a, b[..|b| - 1], topLevel);
    }
  }

  lemma {:induction false} DeclarationsSplit(tools: seq<Tool>, namespace: string, k: nat)
    requires k < |tools|
    ensures Declarations(tools[..k + 1], namespace) == Declarations(tools[..k], namespace) + DeclaredBy(tools[k], namespace)
  {
    hide DeclaredBy;
    var longer, shorter := tools[..k + 1], tools[..k];
    assert longer[0] == tools[0];
    if k == 0 {
      assert longer[1..] == [];
      assert DeclaredBy(tools[0], namespace) + [] == DeclaredBy(tools[0], namespace);
    } else {
      assert longer[1..] == tools[1..][..k] && shorter[1..] == tools[1..][..k - 1];
      DeclarationsSplit(tools[1..], namespace, k - 1);
    }
  }

  /** `iterToolValues` with the callback of `clientToolSpecs`. */
  method Visit(tools: seq<Tool>, namespace: string, topLevel: bool, before: Collected) returns (c: Collected)
    ensures c == AddAll(before, Declarations(tools, namespace), topLevel)
    decreases tools
  {
    c := before;
    for k := 0 to |tools|
      invariant c == AddAll(before, Declarations(tools[..k], namespace), topLevel)
    {
      var tool := tools[k];
      var name := if tool.Foreign? then "" else TrimSpace(tool.name);
      if tool.Callable? && name != "" {
        var spec := ToolSpec(KeyOf(namespace, name), name, namespace, tool);
        if topLevel {
          c := c.(specs := c.specs[spec.key := spec]);
        } else if spec.key in c.conflicts {
        } else if spec.key in c.specs && c.specs[spec.key].tool != tool {
          c := Collected(c.specs - {spec.key}, c.conflicts + {spec.key});
        } else {
          c := c.(specs := c.specs[spec.key := spec]);
        }
        assert c == AddAll(AddAll(before, Declarations(tools[..k], namespace), topLevel), [spec], topLevel) by {
          assert [spec][..0] == [];
        }
      } else if tool.Group? && name != "" {
        c := Visit(tool.tools, name, topLevel, c);
      }
      AddAllAppend(before, Declarations(tools[..k], namespace), DeclaredBy(tool, namespace), topLevel);
      DeclarationsSplit(tools, namespace, k);
    }
    assert tools[..|tools|] == tools;
  }

  /** Where the declarations come from: the request's own list, or the developer's `additional_tools`. */
  datatype Source = Source(topLevel: bool, tools: seq<Tool>)

  function Specs(source: Source): map<string, ToolSpec> {
    AddAll(NOTHING, Declarations(source.tools, ""), source.topLevel).specs
  }

  method ClientToolSpecs(source: Source) returns (specs: map<string, ToolSpec>)
    ensures specs == Specs(source)
  {
    var c := Visit(source.tools, "", source.topLevel, NOTHING);
    specs := c.specs;
  }

  // ---------- what a catalog holds ----------

  /** A declaration's name is that of its tool, and its key is spelled by namespace and name. */
  predicate Formed(spec: ToolSpec) {
    && spec.tool.Callable? && spec.name == TrimSpace(spec.tool.name) && spec.name != ""
    && Trimmed(spec.name) && Trimmed(spec.namespace)
    && spec.key == KeyOf(spec.namespace, spec.name)
  }

  lemma KeyDetermines(a: ToolSpec, b: ToolSpec)
    requires Formed(a) && Formed(b) && a.key == b.key && a.tool == b.tool
    ensures a == b
  {
    hide TrimSpace;
    if a.namespace != "" && b.namespace != "" {
      assert |a.namespace| == |b.namespace|;
      assert a.namespace == a.key[..|a.namespace|] && b.namespace == b.key[..|b.namespace|];
    }
  }

  lemma {:induction false} DeclarationsFormed(tools: seq<Tool>, namespace: string)
    requires Trimmed(namespace)
    ensures forall s | s in Declarations(tools, namespace) :: Formed(s)
    decreases tools
  {
    if tools != [] {
      hide TrimSpace;
      DeclarationsFormed(tools[1..], namespace);
      if !tools[0].Foreign? {
        TrimTwice(tools[0].name);
      }
      if tools[0].Group? {
        DeclarationsFormed(tools[0].tools, TrimSpace(tools[0].name));
      }
    }
  }

  /** All declarations of a key agree. */
  ghost predicate Agreed(specs: seq<ToolSpec>, key: string) {
    forall a, b | a in specs && b in specs && a.key == key && b.key == key :: a == b
  }

  ghost predicate Declares(specs: seq<ToolSpec>, key: string) {
    exists s :: s in specs && s.key == key
  }

  ghost predicate ExactAt(c: Collected, specs: seq<ToolSpec>, key: string) {
    && (key in c.conflicts <==> !Agreed(specs, key))
    && (key in c.specs <==> Declares(specs, key) && Agreed(specs, key))
    && (key in c.specs ==> c.specs[key] in specs && c.specs[key].key == key)
  }

  lemma AgreedExtends(specs: seq<ToolSpec>, spec: ToolSpec, key: string)
    ensures Agreed(specs + [spec], key) <==>
              Agreed(specs, key) && (key == spec.key ==> forall s | s in specs && s.key == key :: s == spec)
  {
    var all := specs + [spec];
    assert forall s :: s in all <==> s in specs || s == spec;
  }

  lemma DeclaresExtends(specs: seq<ToolSpec>, spec: ToolSpec, key: string)
    ensures Declares(specs + [spec], key) <==> Declares(specs, key) || key == spec.key
  {
    assert forall s | s in specs :: s in specs + [spec];
    assert spec in specs + [spec];
  }

  lemma AddKeepsExact(c: Collected, specs: seq<ToolSpec>, spec: ToolSpec, key: string)
    requires ExactAt(c, specs, key) && Formed(spec) && forall s | s in specs :: Formed(s)
    ensures ExactAt(Add(c, spec, false), specs + [spec], key)
  {
    hide TrimSpace, Trimmed, KeyOf;
    AgreedExtends(specs, spec, key);
    DeclaresExtends(specs, spec, key);
    assert forall s | s in specs :: s in specs + [spec];
    assert spec in specs + [spec];
    if key == spec.key && key in c.specs {
      var previous := c.specs[key];
      if previous.tool == spec.tool {
        KeyDetermines(previous, spec);
      }
      assert forall s | s in specs && s.key == key :: s == previous;
    } else if key == spec.key && key !in c.conflicts {
      assert !Declares(specs, key);
    }
    hide Formed, Agreed, Declares;
  }

  /** Without a top-level list, a key is in the catalog exactly when it is declared and all its
      declarations are equal; a key once in conflict never comes back. */
  lemma {:induction false} CollectedExactly(specs: seq<ToolSpec>, key: string)
    requires forall s | s in specs :: Formed(s)
    ensures ExactAt(AddAll(NOTHING, specs, false), specs, key)
  {
    if specs != [] {
      hide ExactAt, Formed, Add;
      var shorter := specs[..|specs| - 1];
      assert shorter + [specs[|specs| - 1]] == specs;
      CollectedExactly(shorter, key);
      AddKeepsExact(AddAll(NOTHING, shorter, false), shorter, specs[|specs| - 1], key);
    }
  }

  lemma CatalogExactly(source: Source, key: string)
    requires !source.topLevel
    ensures var declared := Declarations(source.tools, "");
            && (key in Specs(source) <==> Declares(declared, key) && Agreed(declared, key))
            && (key in Specs(source) ==> Specs(source)[key] in declared && Specs(source)[key].key == key)
  {
    DeclarationsFormed(source.tools, "");
    CollectedExactly(Declarations(source.tools, ""), key);
    hide Agreed, Declares, Formed, AddAll, Declarations;
  }

  /** Hence the catalog does not depend on the order of the declarations, nor on repetitions. */
  lemma OrderIndependent(a: Source, b: Source)
    requires !a.topLevel && !b.topLevel
    requires forall s :: s in Declarations(a.tools, "") <==> s in Declarations(b.tools, "")
    ensures Specs(a) == Specs(b)
  {
    hide Declarations, Specs;
    forall key ensures key in Specs(a) <==> key in Specs(b)
               ensures key in Specs(a) && key in Specs(b) ==> Specs(a)[key] == Specs(b)[key] {
      CatalogExactly(a, key);
      CatalogExactly(b, key);
    }
  }

  /** The last declaration of a key. */
  function LastOf(specs: seq<ToolSpec>, key: string): Option<ToolSpec> {
    if specs == [] then None
    else if specs[|specs| - 1].key == key then Some(specs[|specs| - 1])
    else LastOf(specs[..|specs| - 1], key)
  }

  predicate LastAt(specs: seq<ToolSpec>, key: string, k: int) {
    0 <= k < |specs| && specs[k].key == key && forall j | k < j < |specs| :: specs[j].key != key
  }

  lemma {:induction false} LastOfIsLast(specs: seq<ToolSpec>, key: string)
    ensures LastOf(specs, key).None? <==> forall k | 0 <= k < |specs| :: specs[k].key != key
    ensures LastOf(specs, key).Some? ==> exists k :: LastAt(specs, key, k) && specs[k] == LastOf(specs, key).value
  {
    if specs != [] {
      var n := |specs| - 1;
      if specs[n].key == key {
        assert LastAt(specs, key, n);
      } else {
        LastOfIsLast(specs[..n], key);
        if LastOf(specs, key).Some? {
          var k :| LastAt(specs[..n], key, k) && specs[..n][k] == LastOf(specs[..n], key).value;
          assert LastAt(specs, key, k);
        }
      }
    }
  }

  lemma {:induction false} LastIsCollected(specs: seq<ToolSpec>, key: string)
    ensures var c := AddAll(NOTHING, specs, true);
            && c.conflicts == {}
            && (key in c.specs <==> LastOf(specs, key).Some?)
            && (key in c.specs ==> c.specs[key] == LastOf(specs, key).value)
  {
    if specs != [] {
      LastIsCollected(specs[..|specs| - 1], key);
    }
  }

  /** A top-level list takes the last declaration of every declared key. */
  lemma LastDeclarationWins(specs: seq<ToolSpec>, key: string)
    ensures var c := AddAll(NOTHING, specs, true);
            && c.conflicts == {}
            && (key in c.specs <==> exists k :: 0 <= k < |specs| && specs[k].key == key)
            && (key in c.specs ==> exists k :: LastAt(specs, key, k) && c.specs[key] == specs[k])
  {
    hide AddAll, LastOf;
    LastIsCollected(specs, key);
    LastOfIsLast(specs, key);
  }

  /** Keys are trimmed like the names they are made of. */
  lemma TrimmedKey(namespace: string, name: string)
    requires Trimmed(namespace) && Trimmed(name) && name != ""
    ensures Trimmed(KeyOf(namespace, name))
  {
    NoBlankEnds(namespace);
    NoBlankEnds(name);
    var key := KeyOf(namespace, name);
    NoBlankEnds(key);
    if namespace != "" {
      JoinedStart(namespace, name);
      JoinedEnd(namespace, name);
    }
  }

  /** Every catalog entry stands under its own key, which its name and namespace spell. */
  ghost predicate WellFormed(specs: map<string, ToolSpec>) {
    forall key | key in specs :: specs[key].key == key && Formed(specs[key])
  }

  lemma {:induction false} CollectedFormed(specs: seq<ToolSpec>, topLevel: bool)
    requires forall s | s in specs :: Formed(s)
    ensures WellFormed(AddAll(NOTHING, specs, topLevel).specs)
  {
    hide TrimSpace, Trimmed, KeyOf;
    if specs != [] {
      CollectedFormed(specs[..|specs| - 1], topLevel);
    }
  }

  lemma SpecsFormed(source: Source)
    ensures WellFormed(Specs(source))
  {
    DeclarationsFormed(source.tools, "");
    CollectedFormed(Declarations(source.tools, ""), source.topLevel);
  }

  // ---------- what may be called this turn ----------

  /** A tool named in `tool_choice`. */
  datatype Pick = Pick(kind: string, namespace: string, name: string)

  datatype Choice =
    | Free
    | NoTools
    | MustCall
    | Allowed(required: bool, picks: seq<Pick>)
    | One(pick: Pick)

  function KindOf(tool: Tool): string {
    if tool.Callable? && tool.custom then "custom" else "function"
  }

  predicate Selects(pick: Pick, specs: map<string, ToolSpec>) {
    var key := KeyOf(pick.namespace, pick.name);
    key in specs && KindOf(specs[key].tool) == pick.kind
  }

  method SelectTool(specs: map<string, ToolSpec>, selected: map<string, ToolSpec>, pick: Pick)
    returns (more: map<string, ToolSpec>)
    ensures var key := KeyOf(pick.namespace, pick.name);
            more == if Selects(pick, specs) then selected[key := specs[key]] else selected
  {
    var key := KeyOf(pick.namespace, pick.name);
    if key in specs && KindOf(specs[key].tool) == pick.kind {
      more := selected[key := specs[key]];
    } else {
      more := selected;
    }
  }

  /** The keys a list of picks selects from the catalog. */
  predicate Picked(picks: seq<Pick>, specs: map<string, ToolSpec>, key: string) {
    exists k :: 0 <= k < |picks| && Selects(picks[k], specs) && KeyOf(picks[k].namespace, picks[k].name) == key
  }

  /** The callable part of a catalog: all of it, or just what the turn's `tool_choice` allows, each tool
      unchanged and under its own key. */
  predicate IsCallable(source: Source, choice: Choice, key: string) {
    key in Specs(source)
    && match choice
       case Free => true
       case MustCall => true
       case NoTools => false
       case Allowed(_, picks) => Picked(picks, Specs(source), key)
       case One(pick) => Picked([pick], Specs(source), key)
  }

  function CallableSpecs(source: Source, choice: Choice): map<string, ToolSpec> {
    map key | key in Specs(source) && IsCallable(source, choice, key) :: Specs(source)[key]
  }

  method CallableClientToolSpecs(source: Source, choice: Choice) returns (callable: map<string, ToolSpec>)
    ensures forall key :: key in callable <==> IsCallable(source, choice, key)
    ensures forall key | key in callable :: key in Specs(source) && callable[key] == Specs(source)[key]
    ensures callable == CallableSpecs(source, choice)
  {
    hide Specs, Picked;
    var specs := ClientToolSpecs(source);
    if choice.NoTools? {
      return map[];
    }
    if choice.Free? || choice.MustCall? {
      return specs;
    }
    callable := SelectAll(specs, if choice.Allowed? then choice.picks else [choice.pick]);
  }

  /** The picked part of a catalog. */
  method SelectAll(specs: map<string, ToolSpec>, picks: seq<Pick>) returns (selected: map<string, ToolSpec>)
    ensures forall key :: key in selected <==> key in specs && Picked(picks, specs, key)
    ensures forall key | key in selected :: key in specs && selected[key] == specs[key]
  {
    hide Selects, KeyOf, Picked;
    NonePicked(picks, specs);
    selected := map[];
    for k := 0 to |picks|
      invariant forall key :: key in selected <==> key in specs && Picked(picks[..k], specs, key)
      invariant forall key | key in selected :: key in specs && selected[key] == specs[key]
    {
      SelectedIsDeclared(picks[k], specs);
      selected := SelectTool(specs, selected, picks[k]);
      forall key ensures Picked(picks[..k + 1], specs, key) <==>
          (Picked(picks[..k], specs, key) || (Selects(picks[k], specs) && KeyOf(picks[k].namespace, picks[k].name) == key)) {
        PickedExtends(picks, specs, key, k);
      }
    }
    assert picks[..|picks|] == picks;
  }

  lemma NonePicked(picks: seq<Pick>, specs: map<string, ToolSpec>)
    ensures forall key :: !Picked(picks[..0], specs, key)
  {
  }

  lemma SelectedIsDeclared(pick: Pick, specs: map<string, ToolSpec>)
    ensures Selects(pick, specs) ==> KeyOf(pick.namespace, pick.name) in specs
  {
  }

  lemma PickedExtends(picks: seq<Pick>, specs: map<string, ToolSpec>, key: string, k: nat)
    requires k < |picks|
    ensures Picked(picks[..k + 1], specs, key) <==>
              Picked(picks[..k], specs, key) || (Selects(picks[k], specs) && KeyOf(picks[k].namespace, picks[k].name) == key)
  {
    hide Selects, KeyOf;
    var longer, shorter := picks[..k + 1], picks[..k];
    assert longer[k] == picks[k];
    if Picked(longer, specs, key) {
      var j :| 0 <= j < |longer| && Selects(longer[j], specs) && KeyOf(longer[j].namespace, longer[j].name) == key;
      if j < k {
        assert shorter[j] == longer[j];
      }
    }
    if Picked(shorter, specs, key) {
      var j :| 0 <= j < |shorter| && Selects(shorter[j], specs) && KeyOf(shorter[j].namespace, shorter[j].name) == key;
      assert shorter[j] == longer[j];
    }
  }

  predicate CallRequired(choice: Choice) {
    match choice
    case Free => false
    case NoTools => false
    case MustCall => true
    case Allowed(required, _) => required
    case One(pick) => pick.kind == "function" || pick.kind == "custom"
  }

  /** What may be called this turn is well formed too, and part of the whole catalog. */
  lemma CallableFormed(source: Source, choice: Choice)
    ensures WellFormed(CallableSpecs(source, choice))
    ensures forall key | key in CallableSpecs(source, choice) :: key in Specs(source)
  {
    SpecsFormed(source);
    hide Specs, Formed;
  }

  // ---------- declarations and choices, one by one ----------

  /** The usable declaration of a tool inside the namespace `namespace`, or in a group at any depth below it,
      where the name of the innermost group is the namespace. */
  predicate Declared(spec: ToolSpec, tools: seq<Tool>, namespace: string)
    decreases tools
  {
    exists k :: 0 <= k < |tools| && DeclaredAs(spec, tools[k], namespace)
  }

  predicate DeclaredAs(spec: ToolSpec, tool: Tool, namespace: string)
    decreases tool
  {
    match tool
    case Callable(_, raw, _, _) =>
      && spec.tool == tool && spec.name == TrimSpace(raw) && spec.name != "" && spec.namespace == namespace
      && spec.key == (if namespace == "" then spec.name else namespace + "." + spec.name)
    case Group(raw, tools) => TrimSpace(raw) != "" && Declared(spec, tools, TrimSpace(raw))
    case Foreign(_) => false
  }

  lemma {:induction false} DeclaredByExactly(tool: Tool, namespace: string, spec: ToolSpec)
    ensures spec in DeclaredBy(tool, namespace) <==> DeclaredAs(spec, tool, namespace)
    decreases tool, 0
  {
    hide TrimSpace;
    if tool.Group? {
      DeclaredExactly(tool.tools, TrimSpace(tool.name), spec);
    }
  }

  /** The declarations visited are exactly those: nothing else is declared, and no group is passed over. */
  lemma {:induction false} DeclaredExactly(tools: seq<Tool>, namespace: string, spec: ToolSpec)
    ensures spec in Declarations(tools, namespace) <==> Declared(spec, tools, namespace)
    decreases tools, 1
  {
    hide DeclaredBy, DeclaredAs;
    if tools != [] {
      DeclaredByExactly(tools[0], namespace, spec);
      DeclaredExactly(tools[1..], namespace, spec);
      assert forall k | 1 <= k < |tools| :: tools[k] == tools[1..][k - 1];
      assert forall k | 0 <= k < |tools| - 1 :: tools[1..][k] == tools[k + 1];
    }
  }

  /** A pick names a tool by its spelled key and its kind. */
  predicate Names(pick: Pick, spec: ToolSpec) {
    && spec.key == (if pick.namespace == "" then pick.name else pick.namespace + "." + pick.name)
    && pick.kind == (if spec.tool.Callable? && spec.tool.custom then "custom" else "function")
  }

  /** What may be called: everything when the choice is free or only demands some call, nothing when tools are
      switched off, and otherwise the tools that are named. */
  lemma CallableExactly(source: Source, choice: Choice, key: string)
    ensures key in CallableSpecs(source, choice) <==>
              && key in Specs(source) && !choice.NoTools?
              && (choice.Allowed? ==> exists pick :: pick in choice.picks && Names(pick, Specs(source)[key]))
              && (choice.One? ==> Names(choice.pick, Specs(source)[key]))
  {
    hide Specs, Formed;
    SpecsFormed(source);
    if key in Specs(source) && choice.Allowed? {
      PickedByName(choice.picks, Specs(source), key);
    } else if key in Specs(source) && choice.One? {
      PickedByName([choice.pick], Specs(source), key);
    }
  }

  lemma PickedByName(picks: seq<Pick>, specs: map<string, ToolSpec>, key: string)
    requires key in specs && specs[key].key == key
    ensures Picked(picks, specs, key) <==> exists pick :: pick in picks && Names(pick, specs[key])
  {
    forall k | 0 <= k < |picks|
      ensures Selects(picks[k], specs) && KeyOf(picks[k].namespace, picks[k].name) == key <==> Names(picks[k], specs[key])
    {
    }
    hide Selects, KeyOf, Names;
    if pick :| pick in picks && Names(pick, specs[key]) {
      var k :| 0 <= k < |picks| && picks[k] == pick;
      assert Selects(picks[k], specs) && KeyOf(picks[k].namespace, picks[k].name) == key;
    }
  }

  /** A call is demanded by `required`, also of a list of allowed tools, and by naming one tool. */
  lemma RequiredExactly(choice: Choice)
    ensures choice.Free? || choice.NoTools? ==> !CallRequired(choice)
    ensures choice.MustCall? ==> CallRequired(choice)
    ensures choice.Allowed? ==> (CallRequired(choice) <==> choice.required)
    ensures choice.One? ==> (CallRequired(choice) <==> choice.pick.kind in {"function", "custom"})
  {
  }
}
