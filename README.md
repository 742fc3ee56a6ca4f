# create-pantheon-decoupled-kit: the `main` orchestrator in Dafny

`create-pantheon-decoupled-kit` is a scaffolding command line tool. Its `main` takes an
already-parsed argument bag (`args`) and does the following, in order:

1. It returns early for `--help`/`-h` (printing the help menu) or `--version`/`-v`. Help is checked first.
2. It selects generators. A positional token is kept when it names a generator of the module-level
   registry and is not empty, and every token that names no generator gets a warning unless
   `silent` is set. When no token is kept, a checkbox over every registry name is offered instead,
   and an array answer becomes the selection and is appended to `args._`.
3. It throws when the selection is empty.
4. For each selected generator, in order, it prompts with `args` as the set of questions already
   answered. It merges the answers into `args`, then the generator's static `data` (last write wins).
   It also grows the flat action list and appends one template record
   `{ templateDirs, addon: addon || false }`.
5. It creates the Handlebars instance and calls the action runner exactly once, with the actions,
   the template records and the final `args`.
6. It prints the closing lines (the generators run and a `cd` hint) unless `silent` is set.

The project follows that structure:

- `values.dfy` (module `Values`): bag values, JavaScript truthiness, and `args?.key` used as a condition.
- `generators.dfy` (module `Generators`): generator records, the registry lookup, the positional
  filter, and the merged plan (actions and template records).
- `prompting.dfy` (module `Prompting`): the prompt oracle and the merge law of one loop turn
  (`Turn`) and of the whole loop (`Accumulate`).
- `console.dfy` (module `Console`): the collaborators `main` calls. A `Terminal` object records every
  console line, prompt, Handlebars creation and action-runner call as an `Event`.
- `orchestrator.dfy` (module `Orchestrator`): the mutable bag `ArgBag`; the step-by-step methods
  (`Orchestrate` and the pieces it calls); and the functions `Orchestration`, `Select` and
  `AfterSelection` that specify them.
- `properties.dfy` (module `Properties`): what `main` promises, stated over those functions.

The user's input is fixed in advance:

- `user` gives the reply to a generator question by its name;
- `picks` is the reply to the checkbox;
- `runnerFails` says whether the action runner rejects.

The prompt oracle asks, in order, each question whose name is not yet a key of the bag. A name that
was already asked earlier in the same list is skipped too.

There are two registries:

- `helpRegistry` is the registry passed as a parameter, used only by the help menu;
- `registry` is the module-level one, used for selection and lookup.

## Model

| member | source | states |
|---|---|---|
| Generators.Names | packages/create-pantheon-decoupled-kit/src/index.ts:66-67 | the name list has one entry per registry generator, the i-th being that generator's name |
| Generators.IndexOf | packages/create-pantheon-decoupled-kit/src/index.ts:111-113 | for a name in the registry, the index found is in range, names that generator, and no earlier generator has that name (first match, as `find` scans) |
| Generators.Lookup | packages/create-pantheon-decoupled-kit/src/index.ts:111-113 | the generator found for a registry name is a registry member with that name |
| Generators.LookupAllNames | packages/create-pantheon-decoupled-kit/src/index.ts:110-113 | looking up the selection gives one registry generator per selected name, in selection order, the i-th named by the i-th name |
| Generators.FoundGenerators | packages/create-pantheon-decoupled-kit/src/index.ts:70-77 | the filter never yields more tokens than it is given, and every token it yields names a generator and is non-empty |
| Generators.Dropped | packages/create-pantheon-decoupled-kit/src/index.ts:74-75 | the tokens warned about are no more than the tokens given, and none of them names a generator |
| Generators.FoundConcat | packages/create-pantheon-decoupled-kit/src/index.ts:70-77 | filtering distributes over concatenation of the token list, so kept tokens stay in their original order |
| Generators.DroppedConcat | packages/create-pantheon-decoupled-kit/src/index.ts:70-77 | the warnings of a concatenation of token lists are those of each part in turn, so warnings come in token order |
| Generators.FoundCount | packages/create-pantheon-decoupled-kit/src/index.ts:70-77 | a kept token keeps every one of its occurrences (duplicates are not removed) and any other token has none |
| Generators.DroppedCount | packages/create-pantheon-decoupled-kit/src/index.ts:74-75 | a token naming no generator is warned about once per occurrence, and no other token is warned about |
| Generators.FoundDroppedPartition | packages/create-pantheon-decoupled-kit/src/index.ts:70-77 | when no registry name is empty, each occurrence of a token is either kept or warned about, never both |
| Generators.TemplateDataOf | packages/create-pantheon-decoupled-kit/src/index.ts:125-128 | the template record copies the generator's template directories, and its addon is true exactly when the generator's addon is set to true (missing counts as false) |
| Generators.PlanTemplates | packages/create-pantheon-decoupled-kit/src/index.ts:125-132 | there is one template record per generator, and the i-th is the record of the i-th generator |
| Generators.PlanActionsConcat | packages/create-pantheon-decoupled-kit/src/index.ts:131 | the action list of a concatenation of generators is the concatenation of their action lists |
| Generators.PlanActionsLength | packages/create-pantheon-decoupled-kit/src/index.ts:107-131 | the action list is exactly as long as the selected generators' actions put together: none dropped, none added |
| Generators.PlanActionsAt | packages/create-pantheon-decoupled-kit/src/index.ts:110-131 | the k-th action of the i-th generator sits right after the actions of the generators before it |
| Prompting.Unasked | packages/create-pantheon-decoupled-kit/src/index.ts:117-119 | a prompt call asks no name twice, and asks exactly the names of its questions that are not yet answered |
| Prompting.Answers | packages/create-pantheon-decoupled-kit/src/index.ts:117 | the answers returned cover exactly the question names not in the seed bag, each holding the user's reply |
| Prompting.TurnLaw | packages/create-pantheon-decoupled-kit/src/index.ts:117-122 | one turn: the new keys are exactly the old keys, the generator's question names and its data keys; its data wins on collision; an existing key not in the data keeps its value; a new key not in the data holds the user's reply |
| Prompting.AccumulateGrows | packages/create-pantheon-decoupled-kit/src/index.ts:110-122 | the keys after any prefix of the turns are contained in the keys after all of them |
| Prompting.KeysNeverRemoved | packages/create-pantheon-decoupled-kit/src/index.ts:110-122 | every key present before the loop is present after it |
| Prompting.AllPromptsAnswered | packages/create-pantheon-decoupled-kit/src/index.ts:117-120 | after the loop, every question of every selected generator has a value in the bag |
| Prompting.NeverAskedTwice | packages/create-pantheon-decoupled-kit/src/index.ts:117-120 | no name asked on one turn is asked on a later one |
| Prompting.SeedNeverAsked | packages/create-pantheon-decoupled-kit/src/index.ts:117 | a name already in the bag before the loop (a flag, say) is never asked |
| Prompting.UntouchedKeyKept | packages/create-pantheon-decoupled-kit/src/index.ts:120-122 | a key that no generator's data sets keeps its value through the loop: answers never overwrite |
| Prompting.LastDataWins | packages/create-pantheon-decoupled-kit/src/index.ts:122 | a key set by generator i's data and by no later generator's data ends with generator i's value |
| Prompting.AnsweredOnTurn | packages/create-pantheon-decoupled-kit/src/index.ts:117-122 | the turn that asks a question stores the user's reply, unless that generator's data sets the same key |
| Prompting.KeptAfterTurn | packages/create-pantheon-decoupled-kit/src/index.ts:110-122 | a key that no later generator's data sets keeps the value it had after turn i |
| Prompting.AnswerKept | packages/create-pantheon-decoupled-kit/src/index.ts:117-122 | a reply given on turn i reaches the final bag unless this or a later generator's data overrides it |
| Prompting.AccumulateSplit | packages/create-pantheon-decoupled-kit/src/index.ts:110-122 | running the turns of a and then of b is running the turns of a + b |
| Console.Ticked | packages/create-pantheon-decoupled-kit/src/index.ts:83-89 | the checkbox answer holds exactly the choices that were ticked |
| Console.TickedConcat | packages/create-pantheon-decoupled-kit/src/index.ts:83-89 | ticking over a concatenation of choice lists is ticking over each part in turn, so the answer keeps the choice order |
| Console.CheckboxAnswer | packages/create-pantheon-decoupled-kit/src/index.ts:89-90 | the answer is an array exactly when the reply is one, and an array answer holds only offered choices |
| Console.Warnings | packages/create-pantheon-decoupled-kit/src/index.ts:74-75 | one warning per dropped token, in order, each naming its token |
| Console.Terminal.constructor | packages/create-pantheon-decoupled-kit/src/index.ts:49-52 | the terminal starts with an empty log and the scripted replies |
| Console.Terminal.Show | packages/create-pantheon-decoupled-kit/src/index.ts:55 | appends one console line to the log |
| Console.Terminal.ShowAll | packages/create-pantheon-decoupled-kit/src/index.ts:74-75 | appends the given console lines to the log, in order |
| Console.Terminal.Checkbox | packages/create-pantheon-decoupled-kit/src/index.ts:83-89 | logs the checkbox over the given choices and returns the user's answer |
| Console.Terminal.Prompt | packages/create-pantheon-decoupled-kit/src/index.ts:117 | logs the names asked and returns the answers for the names not in the seed |
| Console.Terminal.CreateHandlebars | packages/create-pantheon-decoupled-kit/src/index.ts:136 | logs the creation of the Handlebars instance |
| Console.Terminal.RunActions | packages/create-pantheon-decoupled-kit/src/index.ts:138-143 | logs the runner call with its actions, template records and data, and succeeds unless the runner rejects |
| Orchestrator.ArgBag.constructor | packages/create-pantheon-decoupled-kit/src/index.ts:50 | the bag holds the parsed entries |
| Orchestrator.ArgBag.PushPositionals | packages/create-pantheon-decoupled-kit/src/index.ts:92 | `args._` grows at its end by the given tokens, and nothing else changes |
| Orchestrator.ArgBag.Assign | packages/create-pantheon-decoupled-kit/src/index.ts:120-122 | every key of the overlay is set to the overlay's value, every other key is kept, and no key is removed |
| Orchestrator.Select | packages/create-pantheon-decoupled-kit/src/index.ts:65-96 | every selected name is a registry name, and the bag stays parsed |
| Orchestrator.SelectGenerators | packages/create-pantheon-decoupled-kit/src/index.ts:65-96 | the step-by-step selection computes `Select`: its selection, the new bag and the new console events |
| Orchestrator.GatherPlan | packages/create-pantheon-decoupled-kit/src/index.ts:107-133 | the loop leaves the concatenated actions, one template record per selected generator, the bag after every turn, and one prompt event per turn |
| Orchestrator.PromptAndMerge | packages/create-pantheon-decoupled-kit/src/index.ts:117-122 | one turn leaves the bag that `Turn` specifies and logs the names it asked |
| Orchestrator.Orchestrate | packages/create-pantheon-decoupled-kit/src/index.ts:49-155 | `main` exits, leaves the bag and produces the events that `Orchestration` specifies |
| Orchestrator.RunSelected | packages/create-pantheon-decoupled-kit/src/index.ts:98-154 | from the empty-selection check on, the method does what `AfterSelection` specifies |
| Orchestrator.ShowSummary | packages/create-pantheon-decoupled-kit/src/index.ts:144-154 | logs the two closing lines, read from the final bag, unless it sets `silent` |
| Properties.HelpExitsFirst | packages/create-pantheon-decoupled-kit/src/index.ts:54-57 | with help requested, the run only shows the help menu of the parameter registry, returns and leaves the bag unchanged, even when version is requested too |
| Properties.VersionExitsSecond | packages/create-pantheon-decoupled-kit/src/index.ts:59-63 | with version requested and help not, the run only shows the version, returns and leaves the bag unchanged |
| Properties.ExplicitSelectionWins | packages/create-pantheon-decoupled-kit/src/index.ts:82-96 | when a positional token names a generator, exactly the kept tokens run; `args._` is not extended; only the warnings precede the loop; the checkbox is never offered; and the run does not depend on the checkbox reply |
| Properties.NoCheckboxAfterSelection | packages/create-pantheon-decoupled-kit/src/index.ts:98-154 | nothing after selection offers the checkbox |
| Properties.InteractiveFallback | packages/create-pantheon-decoupled-kit/src/index.ts:82-93 | with no valid token, the warnings (unless silent) are followed by one checkbox over all registry names in registry order; an array answer becomes the selection and is appended to `args._`; any other answer selects nothing and leaves the bag unchanged |
| Properties.EmptySelectionFails | packages/create-pantheon-decoupled-kit/src/index.ts:98-105 | an empty selection throws `NoGeneratorSelected` listing the registry names, after nothing but warnings and the checkbox: no prompt, no Handlebars, no runner call |
| Properties.SelectionEvents | packages/create-pantheon-decoupled-kit/src/index.ts:65-96 | selection only warns and offers the checkbox |
| Properties.RunnerCalledOnceWithPlan | packages/create-pantheon-decoupled-kit/src/index.ts:136-143 | after a non-empty selection, the runner is called exactly once, right after Handlebars is created, with the concatenated actions, the template records and the final bag |
| Properties.PromptsBeforeRunner | packages/create-pantheon-decoupled-kit/src/index.ts:110-138 | the generator prompts come first, one per selected generator in selection order, each asking the names still unanswered at that turn; none comes after the loop |
| Properties.NoQuestionAskedTwice | packages/create-pantheon-decoupled-kit/src/index.ts:117-120 | in the recorded prompt events, two turns never ask the same name, and no name already in the bag at the start of the loop is asked |
| Properties.RunnerCalledOnceInRun | packages/create-pantheon-decoupled-kit/src/index.ts:138-143 | in a whole run past selection, the runner is called exactly once, right after the selection events, the prompts and Handlebars |
| Properties.RunnerFailurePropagates | packages/create-pantheon-decoupled-kit/src/index.ts:138-154 | past selection, `main` throws `ActionExecutionFailure` exactly when the runner rejects, and then prints no closing line; otherwise it returns |
| Properties.ClosingLines | packages/create-pantheon-decoupled-kit/src/index.ts:144-154 | a successful run ends with the closing lines read from the final bag: none when it sets `silent`, otherwise the generators run and a `cd` hint that carries `outDir` exactly when it is set and truthy |
| Properties.SilentValidToken | packages/create-pantheon-decoupled-kit/src/index.ts:70-96 | a single valid token under `--silent` selects just that generator, with no warning and no checkbox |
| Properties.SilentUnknownToken | packages/create-pantheon-decoupled-kit/src/index.ts:70-105 | a single unknown token under `--silent` prints no warning, offers the checkbox, and with nothing ticked throws `NoGeneratorSelected` before any prompt |
| Properties.BagKeysOnlyGrow | packages/create-pantheon-decoupled-kit/src/index.ts:49-155 | over every run, the keys of the bag are only ever added |

## Left out

- `parseArgs` (index.ts:21-40), the wrapper over `minimist`: the model starts from a parsed bag. `IsParsed` (`_` holds an array of strings) stands for what the parser always produces. `args` being `undefined` is not modelled.
- Prompt library internals are not modelled: `when`, defaults, validation, question types, rendering, dotted names, and the echo of the seed answers. Merging that echo back into the bag would change nothing.
- The prompt oracle answers by question name alone, so two questions with the same name in one list are asked once.
- The text of the help menu, of `v${pkg.version}`, of the warnings and of the thrown message, and all `chalk` formatting are not modelled. The events record what each line carries: the registry names, the token, the generators run and `outDir`.
- `getHandlebarsInstance(rootDir)` is recorded as an event. `rootDir` (a file-system URL) and the `handlebars` field passed to the action runner are not modelled.
- Action runner internals are not modelled. Its rejection is the scripted `runnerFails`, and a rejection propagates out of `main`. Rejections of the prompt calls or of the Handlebars factory are not modelled.
- `async`/`await` is modelled as plain sequential calls.
- Bag values are booleans, strings, integers and string arrays. Floating-point numbers, `NaN`, nested objects and non-string positionals, all of which `minimist` can produce, are not modelled.
- Actions are opaque values that the orchestrator only concatenates.
- `starters/gatsby-wordpress-starter/vite.config.js` is a static build configuration and is not part of this model.
- Several definitions carry no `ensures` of their own; the lemmas and methods named here specify them:
  - `Generators.LookupAll` (index.ts:110-113): `Generators.LookupAllNames`.
  - `Console.PromptEvents` (index.ts:117): `Properties.PromptsBeforeRunner`, `Orchestrator.GatherPlan`.
  - `Generators.Kept` (index.ts:71-73): `Generators.FoundGenerators`, `Generators.FoundCount`.
  - `Generators.PlanActions` (index.ts:107, 131): `Generators.PlanActionsConcat`, `Generators.PlanActionsLength`, `Generators.PlanActionsAt`.
  - `Prompting.Turn` (index.ts:117-122): `Prompting.TurnLaw`.
  - `Prompting.Accumulate` (index.ts:110-122): `Prompting.AccumulateGrows`, `Prompting.UntouchedKeyKept`, `Prompting.LastDataWins`, `Prompting.AnswerKept`, `Prompting.AccumulateSplit`.
  - `Prompting.AskedAt` (index.ts:117): `Prompting.NeverAskedTwice`, `Prompting.SeedNeverAsked`, `Properties.PromptsBeforeRunner`.
  - `Orchestrator.Summary` (index.ts:144-154): `Properties.ClosingLines`, `Orchestrator.ShowSummary`.
  - `Orchestrator.Orchestration` (index.ts:49-155) and `Orchestrator.AfterSelection` (index.ts:98-154): `Orchestrator.Orchestrate`, `Orchestrator.RunSelected` and every lemma of `Properties`.
  - `Values.IsTruthy` and `Values.Flag` (index.ts:54, 60, 74, 144): `Properties.HelpExitsFirst`, `Properties.VersionExitsSecond`, `Properties.InteractiveFallback`, `Properties.ClosingLines`.
- The action runner is assumed to leave `data` (which is `args` itself, passed by reference at index.ts:141) unchanged. The final bag is the one handed to it, and the closing lines read `silent` and `outDir` from that bag. `Properties.BagKeysOnlyGrow` rests on this assumption.
- `[...generator.templates]` (index.ts:126) makes a fresh copy; the model gets that copy from value semantics, so aliasing between the record and the generator is not modelled.
- For a single unknown token with `--silent`, `main` still offers the checkbox (index.ts:82-89) and throws only when nothing is picked; `Properties.SilentUnknownToken` states this.
- The filter callback returns the token itself, so a registry generator named `""` could never be selected positionally, and a token `""` equal to such a name is neither kept nor warned about (`Generators.Kept`, `Generators.Dropped`). The model keeps this behaviour. The registry itself comes from `./generators` (index.ts:4), which is not part of this model; `Generators.FoundDroppedPartition` assumes that no registry name is empty.
