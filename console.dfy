/** The collaborators `main` calls but does not own: the terminal (console output, the checkbox
    prompt, the generator prompts), the Handlebars factory and the action runner. Each call is
    recorded as an event so that the orchestrator's contract can say what was called, in what
    order and with what arguments. */
module Console {
  import opened Values
  import opened Generators
  import opened Prompting

  datatype Error =
    | NoGeneratorSelected(validGenerators: seq<string>)
    | ActionExecutionFailure

  /** How `main` ends: its promise resolves, or it throws. */
  datatype Exit = Returned | Threw(error: Error)

  datatype Event =
    | HelpMenu(generators: seq<string>)
    | VersionShown
    | NoGeneratorWarning(token: string)
    | CheckboxOffered(choices: seq<string>)
    | Prompted(generator: string, asked: seq<string>)
    | HandlebarsCreated
    | ActionRunnerCalled(actions: seq<Action>, templateData: seq<TemplateData>, data: map<string, Value>)
    | GeneratedSummary(generators: seq<string>)
    | CdHint(outDir: Option<Value>)

  /** The choices, in choice order, that the user ticked. */
  function Ticked(choices: seq<string>, picked: seq<string>): (r: seq<string>)
    ensures forall c <- r :: c in choices && c in picked
    ensures forall c <- choices :: c in picked ==> c in r
  {
    if choices == [] then []
    else (if choices[0] in picked then [choices[0]] else []) + Ticked(choices[1..], picked)
  }

  /** The ticked choices keep the choice order: ticking over a concatenation of choice lists is
      ticking over each part in turn. */
  lemma {:induction false} TickedConcat(a: seq<string>, b: seq<string>, picked: seq<string>)
    ensures Ticked(a + b, picked) == Ticked(a, picked) + Ticked(b, picked)
  {
    if a == [] {
      assert a + b == b;
    } else {
      assert (a + b)[0] == a[0];
      assert (a + b)[1..] == a[1..] + b;
      TickedConcat(a[1..], b, picked);
    }
  }

  /** The checkbox answer `answers.generators`: an array of ticked choices when the user's
      reply is an array, the reply itself otherwise. */
  function CheckboxAnswer(choices: seq<string>, reply: Value): (answer: Value)
    ensures answer.Strs? <==> reply.Strs?
    ensures answer.Strs? ==> forall c <- answer.items :: c in choices
  {
    if reply.Strs? then Strs(Ticked(choices, reply.items)) else reply
  }

  /** One warning per dropped positional token. */
  function Warnings(dropped: seq<string>): (events: seq<Event>)
    ensures |events| == |dropped|
    ensures forall i :: 0 <= i < |dropped| ==> events[i] == NoGeneratorWarning(dropped[i])
  {
    seq(|dropped|, i requires 0 <= i < |dropped| => NoGeneratorWarning(dropped[i]))
  }

  /** The prompt calls of the loop, one per selected generator. */
  function PromptEvents(bag: map<string, Value>, gs: seq<Generator>, user: string -> Value): seq<Event>
  {
    seq(|gs|, i requires 0 <= i < |gs| => Prompted(gs[i].name, AskedAt(bag, gs, user, i)))
  }

  /** The terminal and the other collaborators. The user's input is fixed in advance: `user`
      answers the generator prompts by question name, `picks` is the checkbox reply and
      `runnerFails` says whether the action runner rejects. */
  class Terminal {
    const user: string -> Value
    const picks: Value
    const runnerFails: bool
    var log: seq<Event>

    constructor (user: string -> Value, picks: Value, runnerFails: bool)
      ensures this.user == user && this.picks == picks && this.runnerFails == runnerFails
      ensures log == []
    {
      this.user := user;
      this.picks := picks;
      this.runnerFails := runnerFails;
      log := [];
    }

    /** A console line. */
    method Show(e: Event)
      modifies this
      ensures log == old(log) + [e]
    {
      log := log + [e];
    }

    /** Several console lines, in order. */
    method ShowAll(es: seq<Event>)
      modifies this
      ensures log == old(log) + es
    {
      log := log + es;
    }

    /** `inquirer.prompt(whichGenerators)`: the checkbox over `choices`. */
    method Checkbox(choices: seq<string>) returns (answer: Value)
      modifies this
      ensures answer == CheckboxAnswer(choices, picks)
      ensures log == old(log) + [CheckboxOffered(choices)]
    {
      log := log + [CheckboxOffered(choices)];
      answer := CheckboxAnswer(choices, picks);
    }

    /** `inquirer.prompt(generator.prompts, args)` with `seed` as the pre-answered bag. */
    method Prompt(generator: string, questions: seq<Question>, seed: map<string, Value>)
      returns (answers: map<string, Value>)
      modifies this
      ensures answers == Answers(questions, seed, user)
      ensures log == old(log) + [Prompted(generator, Unasked(questions, seed.Keys))]
    {
      log := log + [Prompted(generator, Unasked(questions, seed.Keys))];
      answers := Answers(questions, seed, user);
    }

    /** `getHandlebarsInstance(rootDir)`. */
    method CreateHandlebars()
      modifies this
      ensures log == old(log) + [HandlebarsCreated]
    {
      log := log + [HandlebarsCreated];
    }

    /** `actionRunner({ actions, templateData, data, handlebars })`; `ok` is false when it
        rejects. */
    method RunActions(actions: seq<Action>, templateData: seq<TemplateData>, data: map<string, Value>)
      returns (ok: bool)
      modifies this
      ensures ok == !runnerFails
      ensures log == old(log) + [ActionRunnerCalled(actions, templateData, data)]
    {
      log := log + [ActionRunnerCalled(actions, templateData, data)];
      ok := !runnerFails;
    }
  }
}
