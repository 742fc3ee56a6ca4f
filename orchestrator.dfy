/** `main` of create-pantheon-decoupled-kit: the help and version exits, generator selection
    (positional tokens, else the checkbox), the empty-selection error, the per-generator
    prompt-and-merge loop and the single hand-off to the action runner.

    `Orchestrate` is the step-by-step method; `Orchestration` is the function of the inputs
    that specifies it, and the lemmas below state what `main` promises about it. */
module Orchestrator {
  import opened Values
  import opened Generators
  import opened Prompting
  import opened Console

  /** The parsed argument bag `args`, mutated in place by `main`. */
  class ArgBag {
    var entries: map<string, Value>

    constructor (entries: map<string, Value>)
      ensures this.entries == entries
    {
      this.entries := entries;
    }

    /** `args._.push(...tokens)`. */
    method PushPositionals(tokens: seq<string>)
      requires IsParsed(entries)
      modifies this
      ensures entries == old(entries)[PositionalKey := Strs(Positionals(old(entries)) + tokens)]
      ensures IsParsed(entries) && Positionals(entries) == Positionals(old(entries)) + tokens
    {
      entries := entries[PositionalKey := Strs(Positionals(entries) + tokens)];
    }

    /** `Object.assign(args, overlay)`: every key of `overlay` is set, later values winning. */
    method Assign(overlay: map<string, Value>)
      modifies this
      ensures entries == old(entries) + overlay
      ensures old(entries).Keys <= entries.Keys
    {
      entries := entries + overlay;
    }
  }

  /** The outcome of selection: the names to run, the bag afterwards and the console events. */
  datatype Selection = Selection(toRun: seq<string>, bag: map<string, Value>, events: seq<Event>)

  /** Selection as `main` performs it: filter the positional tokens (warning about the unknown
      ones unless `silent`), and only when none is valid offer the checkbox over the registry. */
  function Select(bag: map<string, Value>, registry: seq<Generator>, picks: Value): (s: Selection)
    requires IsParsed(bag)
    ensures forall n <- s.toRun :: n in Names(registry)
    ensures IsParsed(s.bag)
  {
    var tokens := Positionals(bag);
    var found := FoundGenerators(tokens, registry);
    var warnings := if Flag(bag, "silent") then [] else Warnings(Dropped(tokens, registry));
    if found != [] then Selection(found, bag, warnings)
    else
      var answer := CheckboxAnswer(Names(registry), picks);
      var events := warnings + [CheckboxOffered(Names(registry))];
      if answer.Strs? then Selection(answer.items, bag[PositionalKey := Strs(tokens + answer.items)], events)
      else Selection([], bag, events)
  }

  /** The two closing console lines, which read `silent` and `outDir` from the final bag. */
  function Summary(bag: map<string, Value>, toRun: seq<string>): seq<Event>
  {
    if Flag(bag, "silent") then []
    else [GeneratedSummary(toRun), CdHint(if Flag(bag, "outDir") then Some(bag["outDir"]) else None)]
  }

  /** How a run ends, the bag it leaves and what it called, in order. */
  datatype Run = Run(exit: Exit, bag: map<string, Value>, events: seq<Event>)

  /** The whole of `main` as a function of its inputs. `helpRegistry` is the registry passed as a
      parameter (used only by the help menu); `registry` is the module-level one used for
      selection and lookup. */
  function Orchestration(bag: map<string, Value>, helpRegistry: seq<Generator>, registry: seq<Generator>,
                         user: string -> Value, picks: Value, runnerFails: bool): Run
    requires IsParsed(bag)
  {
    if Flag(bag, "help") || Flag(bag, "h") then Run(Returned, bag, [HelpMenu(Names(helpRegistry))])
    else if Flag(bag, "v") || Flag(bag, "version") then Run(Returned, bag, [VersionShown])
    else
      var sel := Select(bag, registry, picks);
      var rest := AfterSelection(sel.toRun, sel.bag, registry, user, runnerFails);
      Run(rest.exit, rest.bag, sel.events + rest.events)
  }

  /** `main` from line 98 on, once `generatorsToRun` is known: the empty-selection error, else the
      prompt-and-merge loop, the Handlebars instance, the action runner and the closing lines. */
  function AfterSelection(toRun: seq<string>, bag: map<string, Value>, registry: seq<Generator>,
                          user: string -> Value, runnerFails: bool): Run
    requires forall n <- toRun :: n in Names(registry)
  {
    if toRun == [] then Run(Threw(NoGeneratorSelected(Names(registry))), bag, [])
    else
      var gs := LookupAll(registry, toRun);
      var final := Accumulate(bag, gs, user);
      var events := PromptEvents(bag, gs, user)
                    + [HandlebarsCreated, ActionRunnerCalled(PlanActions(gs), PlanTemplates(gs), final)];
      if runnerFails then Run(Threw(ActionExecutionFailure), final, events)
      else Run(Returned, final, events + Summary(final, toRun))
  }

  /** Past the two early exits, a run is selection followed by the rest of `main`. */
  lemma OrchestrationProceeds(bag: map<string, Value>, helpRegistry: seq<Generator>, registry: seq<Generator>,
                              user: string -> Value, picks: Value, runnerFails: bool)
    requires IsParsed(bag)
    requires !(Flag(bag, "help") || Flag(bag, "h")) && !(Flag(bag, "v") || Flag(bag, "version"))
    ensures var sel := Select(bag, registry, picks);
            var rest := AfterSelection(sel.toRun, sel.bag, registry, user, runnerFails);
            Orchestration(bag, helpRegistry, registry, user, picks, runnerFails) == Run(rest.exit, rest.bag, sel.events + rest.events)
  {
  }

  /** A non-empty selection runs the loop, makes the Handlebars instance, calls the action runner
      once with the merged plan and the final bag, and closes with the summary unless the runner
      rejects. */
  lemma AfterSelectionRuns(toRun: seq<string>, bag: map<string, Value>, registry: seq<Generator>,
                           user: string -> Value, runnerFails: bool)
    requires forall n <- toRun :: n in Names(registry)
    requires toRun != []
    ensures var gs := LookupAll(registry, toRun);
            var final := Accumulate(bag, gs, user);
            var run := AfterSelection(toRun, bag, registry, user, runnerFails);
            && run.exit == (if runnerFails then Threw(ActionExecutionFailure) else Returned)
            && run.bag == final
            && run.events == PromptEvents(bag, gs, user)
                             + [HandlebarsCreated, ActionRunnerCalled(PlanActions(gs), PlanTemplates(gs), final)]
                             + (if runnerFails then [] else Summary(final, toRun))
  {
    if runnerFails {
      var gs := LookupAll(registry, toRun);
      var events := PromptEvents(bag, gs, user) + [HandlebarsCreated, ActionRunnerCalled(PlanActions(gs), PlanTemplates(gs), Accumulate(bag, gs, user))];
      assert events + [] == events;
    }
  }

  lemma PromptEventsStep(bag: map<string, Value>, gs: seq<Generator>, user: string -> Value, i: nat)
    requires i < |gs|
    ensures PromptEvents(bag, gs[..i + 1], user)
         == PromptEvents(bag, gs[..i], user) + [Prompted(gs[i].name, Unasked(gs[i].prompts, Accumulate(bag, gs[..i], user).Keys))]
  {
    var longer, shorter := gs[..i + 1], gs[..i];
    var lhs := PromptEvents(bag, longer, user);
    var rhs := PromptEvents(bag, shorter, user) + [Prompted(gs[i].name, Unasked(gs[i].prompts, Accumulate(bag, shorter, user).Keys))];
    forall k | 0 <= k < i + 1
      ensures lhs[k] == rhs[k]
    {
      if k < i {
        assert longer[..k] == shorter[..k];
      } else {
        assert longer[..i] == shorter;
      }
    }
  }

  /** What one turn of the loop adds to each piece of loop state. */
  lemma LoopStep(log: seq<Event>, bag: map<string, Value>, gs: seq<Generator>, user: string -> Value, i: nat)
    requires i < |gs|
    ensures Accumulate(bag, gs[..i + 1], user) == Turn(Accumulate(bag, gs[..i], user), gs[i], user)
    ensures PlanActions(gs[..i + 1]) == PlanActions(gs[..i]) + gs[i].actions
    ensures PlanTemplates(gs[..i + 1]) == PlanTemplates(gs[..i]) + [TemplateDataOf(gs[i])]
    ensures log + PromptEvents(bag, gs[..i + 1], user)
         == (log + PromptEvents(bag, gs[..i], user)) + [Prompted(gs[i].name, Unasked(gs[i].prompts, Accumulate(bag, gs[..i], user).Keys))]
  {
    AccumulateStep(bag, gs, user, i);
    PromptEventsStep(bag, gs, user, i);
    assert gs[..i + 1][..i] == gs[..i];
    AppendAssoc(log, PromptEvents(bag, gs[..i], user), [Prompted(gs[i].name, Unasked(gs[i].prompts, Accumulate(bag, gs[..i], user).Keys))]);
  }

  /** Lines 65-96 of `main`: filter the positional tokens, warn, and fall back to the checkbox
      only when no token names a generator; `args._` grows by the checkbox answer. */
  method SelectGenerators(args: ArgBag, registry: seq<Generator>, term: Terminal)
    returns (generatorsToRun: seq<string>)
    requires IsParsed(args.entries)
    modifies args, term
    ensures var s := Select(old(args.entries), registry, term.picks);
            generatorsToRun == s.toRun && args.entries == s.bag && term.log == old(term.log) + s.events
  {
    var generatorNames := Names(registry);
    var tokens := Positionals(args.entries);
    var foundGenerators := FoundGenerators(tokens, registry);
    ghost var before := term.log;
    ghost var warnings := if Flag(args.entries, "silent") then [] else Warnings(Dropped(tokens, registry));
    if !Flag(args.entries, "silent") {
      term.ShowAll(Warnings(Dropped(tokens, registry)));
    }
    assert term.log == before + warnings;
    generatorsToRun := [];
    if foundGenerators == [] {
      var answer := term.Checkbox(generatorNames);
      AppendAssoc(before, warnings, [CheckboxOffered(generatorNames)]);
      if answer.Strs? {
        generatorsToRun := generatorsToRun + answer.items;
        args.PushPositionals(answer.items);
      }
    } else {
      generatorsToRun := generatorsToRun + foundGenerators;
    }
  }

  /** Lines 107-133 of `main`: one prompt-and-merge turn per selected generator, growing the
      action list and the template records. */
  method GatherPlan(args: ArgBag, registry: seq<Generator>, generatorsToRun: seq<string>, term: Terminal)
    returns (actions: seq<Action>, templateData: seq<TemplateData>)
    requires forall n <- generatorsToRun :: n in Names(registry)
    modifies args, term
    ensures var gs := LookupAll(registry, generatorsToRun);
            && actions == PlanActions(gs)
            && templateData == PlanTemplates(gs)
            && args.entries == Accumulate(old(args.entries), gs, term.user)
            && term.log == old(term.log) + PromptEvents(old(args.entries), gs, term.user)
  {
    ghost var selected := args.entries;
    ghost var gs := LookupAll(registry, generatorsToRun);
    actions := [];
    templateData := [];
    var i := 0;
    while i < |generatorsToRun|
      invariant 0 <= i <= |generatorsToRun|
      invariant args.entries == Accumulate(selected, gs[..i], term.user)
      invariant actions == PlanActions(gs[..i])
      invariant templateData == PlanTemplates(gs[..i])
      invariant term.log == old(term.log) + PromptEvents(selected, gs[..i], term.user)
    {
      var generator := Lookup(registry, generatorsToRun[i]);
      PromptAndMerge(args, generator, term);
      var templateObj := TemplateDataOf(generator);
      actions := actions + generator.actions;
      templateData := templateData + [templateObj];
      LoopStep(old(term.log), selected, gs, term.user, i);
      i := i + 1;
    }
    assert gs[..i] == gs;
  }

  /** Lines 115-122 of `main`: prompt with the bag as the pre-answered seed, merge the answers,
      then merge the generator's static data. */
  method PromptAndMerge(args: ArgBag, generator: Generator, term: Terminal)
    modifies args, term
    ensures args.entries == Turn(old(args.entries), generator, term.user)
    ensures term.log == old(term.log) + [Prompted(generator.name, Unasked(generator.prompts, old(args.entries).Keys))]
  {
    var answers := term.Prompt(generator.name, generator.prompts, args.entries);
    args.Assign(answers);
    if generator.data.Some? {
      args.Assign(generator.data.value);
    }
  }

  /** `main`. */
  method Orchestrate(args: ArgBag, helpRegistry: seq<Generator>, registry: seq<Generator>, term: Terminal)
    returns (exit: Exit)
    requires IsParsed(args.entries)
    modifies args, term
    ensures var run := Orchestration(old(args.entries), helpRegistry, registry, term.user, term.picks, term.runnerFails);
            exit == run.exit && args.entries == run.bag && term.log == old(term.log) + run.events
  {
    if Flag(args.entries, "help") || Flag(args.entries, "h") {
      term.Show(HelpMenu(Names(helpRegistry)));
      return Returned;
    }
    if Flag(args.entries, "v") || Flag(args.entries, "version") {
      term.Show(VersionShown);
      return Returned;
    }

    ghost var initial, before := args.entries, term.log;
    OrchestrationProceeds(initial, helpRegistry, registry, term.user, term.picks, term.runnerFails);
    var generatorsToRun := SelectGenerators(args, registry, term);
    ghost var sel := Select(initial, registry, term.picks);
    exit := RunSelected(args, registry, generatorsToRun, term);
    AppendAssoc(before, sel.events, AfterSelection(sel.toRun, sel.bag, registry, term.user, term.runnerFails).events);
  }

  /** Lines 98-154 of `main`. */
  method RunSelected(args: ArgBag, registry: seq<Generator>, generatorsToRun: seq<string>, term: Terminal)
    returns (exit: Exit)
    requires forall n <- generatorsToRun :: n in Names(registry)
    modifies args, term
    ensures var run := AfterSelection(generatorsToRun, old(args.entries), registry, term.user, term.runnerFails);
            exit == run.exit && args.entries == run.bag && term.log == old(term.log) + run.events
  {
    if generatorsToRun == [] {
      return Threw(NoGeneratorSelected(Names(registry)));
    }
    ghost var before := term.log;
    AfterSelectionRuns(generatorsToRun, args.entries, registry, term.user, term.runnerFails);
    ghost var pe := PromptEvents(args.entries, LookupAll(registry, generatorsToRun), term.user);
    var actions, templateData := GatherPlan(args, registry, generatorsToRun, term);
    term.CreateHandlebars();
    var ok := term.RunActions(actions, templateData, args.entries);
    ghost var called := [HandlebarsCreated, ActionRunnerCalled(actions, templateData, args.entries)];
    AppendAssoc(before + pe, [called[0]], [called[1]]);
    assert [called[0]] + [called[1]] == called;
    AppendAssoc(before, pe, called);
    if !ok {
      return Threw(ActionExecutionFailure);
    }
    ShowSummary(args, generatorsToRun, term);
    AppendAssoc(before, pe + called, Summary(args.entries, generatorsToRun));
    return Returned;
  }

  /** Lines 144-154 of `main`: the closing lines, unless the final bag sets `silent`. */
  method ShowSummary(args: ArgBag, generatorsToRun: seq<string>, term: Terminal)
    modifies term
    ensures term.log == old(term.log) + Summary(args.entries, generatorsToRun)
  {
    if !Flag(args.entries, "silent") {
      ghost var before := term.log;
      var hint := CdHint(if Flag(args.entries, "outDir") then Some(args.entries["outDir"]) else None);
      term.Show(GeneratedSummary(generatorsToRun));
      term.Show(hint);
      AppendAssoc(before, [GeneratedSummary(generatorsToRun)], [hint]);
      assert [GeneratedSummary(generatorsToRun)] + [hint] == [GeneratedSummary(generatorsToRun), hint];
    }
  }
}
