/** Generator descriptors, the registry lookups, the positional filter and the merged plan
    (flat action list and per-generator template records) that the orchestrator builds. */
module Generators {
  import opened Values

  /** A declarative prompt; the orchestrator only looks at its `name`. */
  datatype Question = Question(name: string, message: string)

  /** An opaque unit of work for the action runner; the orchestrator never interprets it. */
  datatype Action = Action(description: string)

  /** An immutable generator descriptor of the registry. */
  datatype Generator = Generator(
    name: string,
    prompts: seq<Question>,
    templates: seq<string>,
    actions: seq<Action>,
    data: Option<map<string, Value>>,
    addon: Option<bool>)

  /** One record per selected generator, handed to the action runner for template deduplication. */
  datatype TemplateData = TemplateData(templateDirs: seq<string>, addon: bool)

  /** The generator names, in registry order. */
  function Names(registry: seq<Generator>): (names: seq<string>)
    ensures |names| == |registry|
    ensures forall i :: 0 <= i < |registry| ==> names[i] == registry[i].name
  {
    if registry == [] then [] else [registry[0].name] + Names(registry[1..])
  }

  /** Position of the first generator called `name`, as `Array.prototype.find` scans. */
  function IndexOf(registry: seq<Generator>, name: string): (i: nat)
    requires name in Names(registry)
    ensures i < |registry| && registry[i].name == name
    ensures forall j :: 0 <= j < i ==> registry[j].name != name
  {
    if registry[0].name == name then 0 else 1 + IndexOf(registry[1..], name)
  }

  /** The generator that `find(({ name }) => name === g)` yields. */
  function Lookup(registry: seq<Generator>, name: string): (g: Generator)
    requires name in Names(registry)
    ensures g in registry && g.name == name
  {
    registry[IndexOf(registry, name)]
  }

  /** The descriptors of the selected names, one per name, in selection order. */
  function LookupAll(registry: seq<Generator>, names: seq<string>): seq<Generator>
    requires forall n <- names :: n in Names(registry)
  {
    seq(|names|, i requires 0 <= i < |names| => Lookup(registry, names[i]))
  }

  /** The i-th looked-up descriptor is a registry generator named by the i-th selected name. */
  lemma LookupAllNames(registry: seq<Generator>, names: seq<string>)
    requires forall n <- names :: n in Names(registry)
    ensures |LookupAll(registry, names)| == |names|
    ensures forall i :: 0 <= i < |names| ==> LookupAll(registry, names)[i] in registry && LookupAll(registry, names)[i].name == names[i]
  {
  }

  /** The filter callback returns the token itself when it names a generator, so a token is
      kept exactly when it names a generator and is not the (falsy) empty string. */
  predicate Kept(registry: seq<Generator>, token: string)
  {
    token in Names(registry) && token != ""
  }

  /** `foundGenerators`: the tokens the positional filter keeps, in order, duplicates kept. */
  function FoundGenerators(tokens: seq<string>, registry: seq<Generator>): (found: seq<string>)
    ensures |found| <= |tokens|
    ensures forall t <- found :: Kept(registry, t)
  {
    if tokens == [] then []
    else (if Kept(registry, tokens[0]) then [tokens[0]] else []) + FoundGenerators(tokens[1..], registry)
  }

  /** The tokens the filter warns about: those that name no generator, in order. */
  function Dropped(tokens: seq<string>, registry: seq<Generator>): (dropped: seq<string>)
    ensures |dropped| <= |tokens|
    ensures forall t <- dropped :: t !in Names(registry)
  {
    if tokens == [] then []
    else (if tokens[0] in Names(registry) then [] else [tokens[0]]) + Dropped(tokens[1..], registry)
  }

  /** The filter distributes over concatenation: it keeps tokens in their original order. */
  lemma {:induction false} FoundConcat(a: seq<string>, b: seq<string>, registry: seq<Generator>)
    ensures FoundGenerators(a + b, registry) == FoundGenerators(a, registry) + FoundGenerators(b, registry)
  {
    if a == [] {
      assert a + b == b;
    } else {
      assert (a + b)[0] == a[0];
      assert (a + b)[1..] == a[1..] + b;
      FoundConcat(a[1..], b, registry);
    }
  }

  /** Warnings follow the token order: the dropped tokens of a concatenation are those of its parts. */
  lemma {:induction false} DroppedConcat(a: seq<string>, b: seq<string>, registry: seq<Generator>)
    ensures Dropped(a + b, registry) == Dropped(a, registry) + Dropped(b, registry)
  {
    if a == [] {
      assert a + b == b;
    } else {
      assert (a + b)[0] == a[0];
      assert (a + b)[1..] == a[1..] + b;
      DroppedConcat(a[1..], b, registry);
    }
  }

  /** Every kept token keeps all of its occurrences (duplicates are not removed), and no other
      token survives. */
  lemma {:induction false} FoundCount(tokens: seq<string>, registry: seq<Generator>, t: string)
    ensures multiset(FoundGenerators(tokens, registry))[t] == if Kept(registry, t) then multiset(tokens)[t] else 0
  {
    if tokens != [] {
      FoundCount(tokens[1..], registry, t);
      assert tokens == [tokens[0]] + tokens[1..];
      assert multiset(tokens) == multiset([tokens[0]]) + multiset(tokens[1..]);
    }
  }

  /** Every token that names no generator is warned about once per occurrence; no other token is. */
  lemma {:induction false} DroppedCount(tokens: seq<string>, registry: seq<Generator>, t: string)
    ensures multiset(Dropped(tokens, registry))[t] == if t in Names(registry) then 0 else multiset(tokens)[t]
  {
    if tokens != [] {
      DroppedCount(tokens[1..], registry, t);
      assert tokens == [tokens[0]] + tokens[1..];
      assert multiset(tokens) == multiset([tokens[0]]) + multiset(tokens[1..]);
    }
  }

  /** When no registry name is empty, every occurrence of a token is either kept or warned
      about, never both. */
  lemma FoundDroppedPartition(tokens: seq<string>, registry: seq<Generator>, t: string)
    requires forall g <- registry :: g.name != ""
    ensures multiset(FoundGenerators(tokens, registry))[t] + multiset(Dropped(tokens, registry))[t] == multiset(tokens)[t]
  {
    FoundCount(tokens, registry, t);
    DroppedCount(tokens, registry, t);
    if t in Names(registry) {
      var i :| 0 <= i < |registry| && registry[i].name == t;
      assert registry[i] in registry;
    }
  }

  /** The record `{ templateDirs: [...generator.templates], addon: generator.addon || false }`. */
  function TemplateDataOf(g: Generator): (t: TemplateData)
    ensures t.templateDirs == g.templates
    ensures t.addon <==> g.addon == Some(true)
  {
    TemplateData(g.templates, if g.addon.Some? then g.addon.value else false)
  }

  /** The flat action list after the loop has pushed the actions of every generator in `gs`. */
  function PlanActions(gs: seq<Generator>): seq<Action>
  {
    if gs == [] then [] else PlanActions(gs[..|gs| - 1]) + gs[|gs| - 1].actions
  }

  /** The template records after the loop has pushed one for every generator in `gs`. */
  function PlanTemplates(gs: seq<Generator>): (ts: seq<TemplateData>)
    ensures |ts| == |gs|
    ensures forall i :: 0 <= i < |gs| ==> ts[i] == TemplateDataOf(gs[i])
  {
    if gs == [] then [] else PlanTemplates(gs[..|gs| - 1]) + [TemplateDataOf(gs[|gs| - 1])]
  }

  /** The sum of the action counts of `gs`. */
  function TotalActions(gs: seq<Generator>): nat
  {
    if gs == [] then 0 else |gs[0].actions| + TotalActions(gs[1..])
  }

  lemma {:induction false} PlanActionsConcat(a: seq<Generator>, b: seq<Generator>)
    ensures PlanActions(a + b) == PlanActions(a) + PlanActions(b)
  {
    if b == [] {
      assert a + b == a;
    } else {
      var ab, b', last := a + b, b[..|b| - 1], b[|b| - 1];
      assert ab[..|ab| - 1] == a + b';
      assert ab[|ab| - 1] == last;
      PlanActionsConcat(a, b');
      assert PlanActions(ab) == (PlanActions(a) + PlanActions(b')) + last.actions;
      AppendAssoc(PlanActions(a), PlanActions(b'), last.actions);
    }
  }

  lemma {:induction false} TotalActionsConcat(a: seq<Generator>, b: seq<Generator>)
    ensures TotalActions(a + b) == TotalActions(a) + TotalActions(b)
  {
    if a == [] {
      assert a + b == b;
    } else {
      assert (a + b)[1..] == a[1..] + b;
      TotalActionsConcat(a[1..], b);
    }
  }

  /** No action is dropped or added: the plan is as long as all selected generators' actions. */
  lemma {:induction false} PlanActionsLength(gs: seq<Generator>)
    ensures |PlanActions(gs)| == TotalActions(gs)
  {
    if gs != [] {
      var init := gs[..|gs| - 1];
      PlanActionsLength(init);
      assert gs == init + [gs[|gs| - 1]];
      TotalActionsConcat(init, [gs[|gs| - 1]]);
      assert TotalActions([gs[|gs| - 1]]) == |gs[|gs| - 1].actions| + TotalActions([]);
    }
  }

  /** Nothing is reordered: the k-th action of the i-th selected generator sits right after the
      actions of the generators selected before it. */
  lemma PlanActionsAt(gs: seq<Generator>, i: nat, k: nat)
    requires i < |gs| && k < |gs[i].actions|
    ensures |PlanActions(gs[..i])| + k < |PlanActions(gs)|
    ensures PlanActions(gs)[|PlanActions(gs[..i])| + k] == gs[i].actions[k]
  {
    assert gs == gs[..i] + [gs[i]] + gs[i + 1..];
    PlanActionsConcat(gs[..i] + [gs[i]], gs[i + 1..]);
    PlanActionsConcat(gs[..i], [gs[i]]);
    assert [gs[i]][..0] == [];
  }
}
