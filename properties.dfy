/** What `main` promises, stated over `Orchestration`, the function that `Orchestrate` is
    proved to compute. */
module Properties {
  import opened Values
  import opened Generators
  import opened Prompting
  import opened Console
  import opened Orchestrator

  /** `--help` (or `-h`) wins over everything: the help menu lists the registry that was passed
      in, and nothing is selected, prompted or run; the bag is unchanged. */
  lemma HelpExitsFirst(bag: map<string, Value>, helpRegistry: seq<Generator>, registry: seq<Generator>,
                       user: string -> Value, picks: Value, runnerFails: bool)
    requires IsParsed(bag) && (Flag(bag, "help") || Flag(bag, "h"))
    ensures Orchestration(bag, helpRegistry, registry, user, picks, runnerFails)
         == Run(Returned, bag, [HelpMenu(Names(helpRegistry))])
  {
  }

  /** `--version` (or `-v`), checked only when help is not requested, also returns at once. */
  lemma VersionExitsSecond(bag: map<string, Value>, helpRegistry: seq<Generator>, registry: seq<Generator>,
                           user: string -> Value, picks: Value, runnerFails: bool)
    requires IsParsed(bag) && !(Flag(bag, "help") || Flag(bag, "h")) && (Flag(bag, "v") || Flag(bag, "version"))
    ensures Orchestration(bag, helpRegistry, registry, user, picks, runnerFails) == Run(Returned, bag, [VersionShown])
  {
  }

  /** The condition under which `main` goes past the two early exits. */
  predicate Proceeds(bag: map<string, Value>)
  {
    !(Flag(bag, "help") || Flag(bag, "h")) && !(Flag(bag, "v") || Flag(bag, "version"))
  }

  /** Explicit wins over interactive: when some positional token names a generator, exactly the
      kept tokens run, `args._` is not extended, the checkbox is never offered, and the run does
      not depend on what the user would have ticked. */
  lemma ExplicitSelectionWins(bag: map<string, Value>, helpRegistry: seq<Generator>, registry: seq<Generator>,
                              user: string -> Value, picks: Value, otherPicks: Value, runnerFails: bool)
    requires IsParsed(bag) && Proceeds(bag)
    requires FoundGenerators(Positionals(bag), registry) != []
    ensures var sel := Select(bag, registry, picks);
            var warnings := if Flag(bag, "silent") then [] else Warnings(Dropped(Positionals(bag), registry));
            sel.toRun == FoundGenerators(Positionals(bag), registry) && sel.bag == bag && sel.events == warnings
    ensures forall e <- Orchestration(bag, helpRegistry, registry, user, picks, runnerFails).events :: !e.CheckboxOffered?
    ensures Orchestration(bag, helpRegistry, registry, user, picks, runnerFails)
         == Orchestration(bag, helpRegistry, registry, user, otherPicks, runnerFails)
  {
    var sel := Select(bag, registry, picks);
    var rest := AfterSelection(sel.toRun, sel.bag, registry, user, runnerFails);
    NoCheckboxAfterSelection(sel.toRun, sel.bag, registry, user, runnerFails);
    assert forall e <- sel.events :: e.NoGeneratorWarning?;
    assert Orchestration(bag, helpRegistry, registry, user, picks, runnerFails).events == sel.events + rest.events;
  }

  /** Nothing after selection offers the checkbox again. */
  lemma NoCheckboxAfterSelection(toRun: seq<string>, bag: map<string, Value>, registry: seq<Generator>,
                                 user: string -> Value, runnerFails: bool)
    requires forall n <- toRun :: n in Names(registry)
    ensures forall e <- AfterSelection(toRun, bag, registry, user, runnerFails).events :: !e.CheckboxOffered?
  {
    if toRun != [] {
      var gs := LookupAll(registry, toRun);
      var final := Accumulate(bag, gs, user);
      var pe := PromptEvents(bag, gs, user);
      AfterSelectionRuns(toRun, bag, registry, user, runnerFails);
      assert forall e <- pe :: e.Prompted?;
      NoCheckboxIn(pe, ActionRunnerCalled(PlanActions(gs), PlanTemplates(gs), final),
                   if runnerFails then [] else Summary(final, toRun));
    }
  }

  /** Prompts, Handlebars, the runner call and closing lines are none of them a checkbox. */
  lemma NoCheckboxIn(pe: seq<Event>, runner: Event, closing: seq<Event>)
    requires forall e <- pe :: e.Prompted?
    requires forall e <- closing :: e.GeneratedSummary? || e.CdHint?
    requires runner.ActionRunnerCalled?
    ensures forall e <- pe + [HandlebarsCreated, runner] + closing :: !e.CheckboxOffered?
  {
  }

  /** When no positional token names a generator, the checkbox is offered once, over every
      registry name in registry order, right after the warnings; an array answer becomes the
      selection and is appended to `args._`, any other answer selects nothing. */
  lemma InteractiveFallback(bag: map<string, Value>, registry: seq<Generator>, picks: Value)
    requires IsParsed(bag)
    requires FoundGenerators(Positionals(bag), registry) == []
    ensures var sel := Select(bag, registry, picks);
            var warnings := if Flag(bag, "silent") then [] else Warnings(Dropped(Positionals(bag), registry));
            && sel.events == warnings + [CheckboxOffered(Names(registry))]
            && (picks.Strs? ==> && sel.toRun == Ticked(Names(registry), picks.items)
                                && IsParsed(sel.bag)
                                && Positionals(sel.bag) == Positionals(bag) + sel.toRun
                                && sel.bag == bag[PositionalKey := Strs(Positionals(bag) + sel.toRun)])
            && (!picks.Strs? ==> sel.toRun == [] && sel.bag == bag)
  {
  }

  /** An empty selection is fatal: `main` throws `NoGeneratorSelected` listing the registry names,
      and before that it only warned and offered the checkbox; no generator was prompted, no
      Handlebars instance was made and the action runner was not called. */
  lemma EmptySelectionFails(bag: map<string, Value>, helpRegistry: seq<Generator>, registry: seq<Generator>,
                            user: string -> Value, picks: Value, runnerFails: bool)
    requires IsParsed(bag) && Proceeds(bag)
    requires Select(bag, registry, picks).toRun == []
    ensures var run := Orchestration(bag, helpRegistry, registry, user, picks, runnerFails);
            && run.exit == Threw(NoGeneratorSelected(Names(registry)))
            && forall e <- run.events :: e.NoGeneratorWarning? || e.CheckboxOffered?
  {
    var sel := Select(bag, registry, picks);
    assert forall e <- Warnings(Dropped(Positionals(bag), registry)) :: e.NoGeneratorWarning?;
    assert Orchestration(bag, helpRegistry, registry, user, picks, runnerFails).events == sel.events + [];
  }

  /** Selection only warns and offers the checkbox. */
  lemma SelectionEvents(bag: map<string, Value>, registry: seq<Generator>, picks: Value)
    requires IsParsed(bag)
    ensures forall e <- Select(bag, registry, picks).events :: e.NoGeneratorWarning? || e.CheckboxOffered?
  {
    assert forall e <- Warnings(Dropped(Positionals(bag), registry)) :: e.NoGeneratorWarning?;
  }

  /** Where each kind of event can sit once a selection is made: the generator prompts, then
      Handlebars and the runner, then the closing lines. */
  lemma EventLayout(pe: seq<Event>, runner: Event, closing: seq<Event>)
    requires forall e <- pe :: e.Prompted?
    requires forall e <- closing :: e.GeneratedSummary? || e.CdHint?
    requires runner.ActionRunnerCalled?
    ensures var events := pe + [HandlebarsCreated, runner] + closing;
            var p := |pe| + 1;
            && p < |events| && events[p - 1] == HandlebarsCreated && events[p] == runner
            && (forall q :: 0 <= q < |events| && q != p ==> !events[q].ActionRunnerCalled?)
            && (forall q :: 0 <= q < |events| && events[q].Prompted? ==> q < |pe|)
            && (forall i :: 0 <= i < |pe| ==> events[i] == pe[i])
  {
    var events := pe + [HandlebarsCreated, runner] + closing;
    forall q | 0 <= q < |events|
      ensures q != |pe| + 1 ==> !events[q].ActionRunnerCalled?
      ensures events[q].Prompted? ==> q < |pe|
    {
      if q < |pe| {
        assert events[q] == pe[q] && pe[q] in pe;
      } else if q == |pe| {
        assert events[q] == HandlebarsCreated;
      } else if q >= |pe| + 2 {
        var k := q - |pe| - 2;
        assert events[q] == closing[k] && closing[k] in closing;
      }
    }
  }

  /** Once a non-empty selection is made, the action runner is called exactly once, right after
      the Handlebars instance is made, with the merged plan: the concatenated actions, one
      template record per selected generator, and the final bag as `data`. */
  lemma RunnerCalledOnceWithPlan(toRun: seq<string>, bag: map<string, Value>, registry: seq<Generator>,
                                 user: string -> Value, runnerFails: bool)
    requires forall n <- toRun :: n in Names(registry)
    requires toRun != []
    ensures var gs := LookupAll(registry, toRun);
            var run := AfterSelection(toRun, bag, registry, user, runnerFails);
            var p := |toRun| + 1;
            && p < |run.events|
            && run.events[p - 1] == HandlebarsCreated
            && run.events[p] == ActionRunnerCalled(PlanActions(gs), PlanTemplates(gs), run.bag)
            && (forall q :: 0 <= q < |run.events| && q != p ==> !run.events[q].ActionRunnerCalled?)
            && run.bag == Accumulate(bag, gs, user)
  {
    var gs := LookupAll(registry, toRun);
    var final := Accumulate(bag, gs, user);
    var pe := PromptEvents(bag, gs, user);
    AfterSelectionRuns(toRun, bag, registry, user, runnerFails);
    assert forall e <- pe :: e.Prompted?;
    EventLayout(pe, ActionRunnerCalled(PlanActions(gs), PlanTemplates(gs), final),
                if runnerFails then [] else Summary(final, toRun));
  }

  /** The generator prompts come first, one per selected generator in selection order, each
      asking the questions still unanswered at that point of the loop; none comes later. */
  lemma PromptsBeforeRunner(toRun: seq<string>, bag: map<string, Value>, registry: seq<Generator>,
                            user: string -> Value, runnerFails: bool)
    requires forall n <- toRun :: n in Names(registry)
    requires toRun != []
    ensures var gs := LookupAll(registry, toRun);
            var run := AfterSelection(toRun, bag, registry, user, runnerFails);
            && |toRun| < |run.events|
            && (forall q :: 0 <= q < |run.events| && run.events[q].Prompted? ==> q < |toRun|)
            && (forall i :: 0 <= i < |toRun| ==> run.events[i] == Prompted(toRun[i], AskedAt(bag, gs, user, i)))
  {
    var gs := LookupAll(registry, toRun);
    var final := Accumulate(bag, gs, user);
    var pe := PromptEvents(bag, gs, user);
    AfterSelectionRuns(toRun, bag, registry, user, runnerFails);
    assert forall e <- pe :: e.Prompted?;
    EventLayout(pe, ActionRunnerCalled(PlanActions(gs), PlanTemplates(gs), final),
                if runnerFails then [] else Summary(final, toRun));
    LookupAllNames(registry, toRun);
  }

  /** No question is asked twice, and no question whose name the bag already held when the loop
      started (a command-line flag, say) is asked at all. */
  lemma NoQuestionAskedTwice(toRun: seq<string>, bag: map<string, Value>, registry: seq<Generator>,
                             user: string -> Value, runnerFails: bool, i: nat, j: nat)
    requires forall n <- toRun :: n in Names(registry)
    requires i < j < |toRun|
    ensures var run := AfterSelection(toRun, bag, registry, user, runnerFails);
            && j < |run.events| && run.events[i].Prompted? && run.events[j].Prompted?
            && (forall n <- run.events[i].asked :: n !in run.events[j].asked)
            && (forall n <- run.events[j].asked :: n !in bag)
  {
    var gs := LookupAll(registry, toRun);
    PromptsBeforeRunner(toRun, bag, registry, user, runnerFails);
    NeverAskedTwice(bag, gs, user, i, j);
    SeedNeverAsked(bag, gs, user, j);
  }

  /** In a whole run that gets past selection, the selection events come first and the rest of
      `main` follows them; the action runner is called exactly once there. */
  lemma RunnerCalledOnceInRun(bag: map<string, Value>, helpRegistry: seq<Generator>, registry: seq<Generator>,
                              user: string -> Value, picks: Value, runnerFails: bool)
    requires IsParsed(bag) && Proceeds(bag)
    requires Select(bag, registry, picks).toRun != []
    ensures var sel := Select(bag, registry, picks);
            var run := Orchestration(bag, helpRegistry, registry, user, picks, runnerFails);
            var p := |sel.events| + |sel.toRun| + 1;
            && p < |run.events|
            && run.events[p].ActionRunnerCalled?
            && (forall q :: 0 <= q < |run.events| && q != p ==> !run.events[q].ActionRunnerCalled?)
  {
    var sel := Select(bag, registry, picks);
    var rest := AfterSelection(sel.toRun, sel.bag, registry, user, runnerFails);
    OrchestrationProceeds(bag, helpRegistry, registry, user, picks, runnerFails);
    SelectionEvents(bag, registry, picks);
    RunnerCalledOnceWithPlan(sel.toRun, sel.bag, registry, user, runnerFails);
    RunnerAfterSelection(sel.events, rest.events, |sel.toRun| + 1);
  }

  /** Putting selection events in front of the rest of a run shifts its single runner call. */
  lemma RunnerAfterSelection(pre: seq<Event>, rest: seq<Event>, p: nat)
    requires forall e <- pre :: e.NoGeneratorWarning? || e.CheckboxOffered?
    requires p < |rest| && rest[p].ActionRunnerCalled?
    requires forall q :: 0 <= q < |rest| && q != p ==> !rest[q].ActionRunnerCalled?
    ensures |pre| + p < |pre + rest| && (pre + rest)[|pre| + p].ActionRunnerCalled?
    ensures forall q :: 0 <= q < |pre + rest| && q != |pre| + p ==> !(pre + rest)[q].ActionRunnerCalled?
  {
    var events := pre + rest;
    forall q | 0 <= q < |events| && q != |pre| + p
      ensures !events[q].ActionRunnerCalled?
    {
      if q < |pre| {
        assert events[q] == pre[q] && pre[q] in pre;
      } else {
        assert events[q] == rest[q - |pre|];
      }
    }
  }

  /** A rejection of the action runner propagates out of `main`, and then no closing line is
      printed; otherwise `main` returns. */
  lemma RunnerFailurePropagates(bag: map<string, Value>, helpRegistry: seq<Generator>, registry: seq<Generator>,
                                user: string -> Value, picks: Value, runnerFails: bool)
    requires IsParsed(bag) && Proceeds(bag)
    requires Select(bag, registry, picks).toRun != []
    ensures var run := Orchestration(bag, helpRegistry, registry, user, picks, runnerFails);
            && (run.exit == Threw(ActionExecutionFailure) <==> runnerFails)
            && (!runnerFails ==> run.exit == Returned)
            && (runnerFails ==> forall e <- run.events :: !e.GeneratedSummary? && !e.CdHint?)
  {
    var sel := Select(bag, registry, picks);
    var gs := LookupAll(registry, sel.toRun);
    var pe := PromptEvents(sel.bag, gs, user);
    OrchestrationProceeds(bag, helpRegistry, registry, user, picks, runnerFails);
    AfterSelectionRuns(sel.toRun, sel.bag, registry, user, runnerFails);
    if runnerFails {
      SelectionEvents(bag, registry, picks);
      assert forall e <- pe :: e.Prompted?;
      var rest := pe + [HandlebarsCreated, ActionRunnerCalled(PlanActions(gs), PlanTemplates(gs), Accumulate(sel.bag, gs, user))];
      NoClosingLine(sel.events, rest);
    }
  }

  /** Neither selection events nor the events up to the runner call are closing lines. */
  lemma NoClosingLine(pre: seq<Event>, rest: seq<Event>)
    requires forall e <- pre :: e.NoGeneratorWarning? || e.CheckboxOffered?
    requires forall e <- rest :: e.Prompted? || e.HandlebarsCreated? || e.ActionRunnerCalled?
    ensures forall e <- pre + (rest + []) :: !e.GeneratedSummary? && !e.CdHint?
  {
    assert rest + [] == rest;
  }

  /** A successful run ends with the closing lines, which read `silent` and `outDir` from the
      final bag: nothing under `silent`, otherwise the generators run and the `cd` hint, which
      falls back to no directory when `outDir` is unset or empty. */
  lemma ClosingLines(bag: map<string, Value>, helpRegistry: seq<Generator>, registry: seq<Generator>,
                     user: string -> Value, picks: Value)
    requires IsParsed(bag) && Proceeds(bag)
    requires Select(bag, registry, picks).toRun != []
    ensures var sel := Select(bag, registry, picks);
            var run := Orchestration(bag, helpRegistry, registry, user, picks, false);
            var closing := Summary(run.bag, sel.toRun);
            && |closing| <= |run.events|
            && run.events[|run.events| - |closing|..] == closing
            && (closing == [] <==> Flag(run.bag, "silent"))
            && (!Flag(run.bag, "silent") ==> closing[0] == GeneratedSummary(sel.toRun))
            && (!Flag(run.bag, "silent") ==> closing[1].CdHint? && (closing[1].outDir.Some? <==> Flag(run.bag, "outDir")))
            && (!Flag(run.bag, "silent") && Flag(run.bag, "outDir") ==> closing[1].outDir.value == run.bag["outDir"])
  {
    var sel := Select(bag, registry, picks);
    var gs := LookupAll(registry, sel.toRun);
    var rest := AfterSelection(sel.toRun, sel.bag, registry, user, false);
    OrchestrationProceeds(bag, helpRegistry, registry, user, picks, false);
    AfterSelectionRuns(sel.toRun, sel.bag, registry, user, false);
    var closing := Summary(Accumulate(sel.bag, gs, user), sel.toRun);
    var front := PromptEvents(sel.bag, gs, user) + [HandlebarsCreated, ActionRunnerCalled(PlanActions(gs), PlanTemplates(gs), Accumulate(sel.bag, gs, user))];
    SuffixOf(sel.events + front, closing);
    AppendAssoc(sel.events, front, closing);
  }

  /** The last part of a concatenation is its suffix. */
  lemma SuffixOf(front: seq<Event>, closing: seq<Event>)
    ensures (front + closing)[|front + closing| - |closing|..] == closing
  {
  }

  /** A single valid generator name with `--silent`: exactly that generator is selected, with no
      warning and no checkbox. */
  lemma SilentValidToken(bag: map<string, Value>, registry: seq<Generator>, picks: Value, name: string)
    requires IsParsed(bag) && Flag(bag, "silent")
    requires Positionals(bag) == [name] && name in Names(registry) && name != ""
    ensures Select(bag, registry, picks) == Selection([name], bag, [])
  {
  }

  /** A single unknown token with `--silent`: no warning is printed and the checkbox is offered;
      when the user ticks nothing, `main` throws `NoGeneratorSelected` before any generator
      prompt. */
  lemma SilentUnknownToken(bag: map<string, Value>, helpRegistry: seq<Generator>, registry: seq<Generator>,
                           user: string -> Value, runnerFails: bool, token: string)
    requires IsParsed(bag) && Proceeds(bag) && Flag(bag, "silent")
    requires Positionals(bag) == [token] && token !in Names(registry)
    ensures var run := Orchestration(bag, helpRegistry, registry, user, Strs([]), runnerFails);
            && run.events == [CheckboxOffered(Names(registry))]
            && run.exit == Threw(NoGeneratorSelected(Names(registry)))
  {
    assert Ticked(Names(registry), []) == [];
  }

  /** Over every run, keys of the bag are only ever added. */
  lemma BagKeysOnlyGrow(bag: map<string, Value>, helpRegistry: seq<Generator>, registry: seq<Generator>,
                        user: string -> Value, picks: Value, runnerFails: bool)
    requires IsParsed(bag)
    ensures bag.Keys <= Orchestration(bag, helpRegistry, registry, user, picks, runnerFails).bag.Keys
  {
    if Proceeds(bag) {
      var sel := Select(bag, registry, picks);
      assert bag.Keys <= sel.bag.Keys;
      if sel.toRun != [] {
        KeysNeverRemoved(sel.bag, LookupAll(registry, sel.toRun), user);
      }
    }
  }
}
