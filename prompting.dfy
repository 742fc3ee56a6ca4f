/** The prompt oracle and the merge law of the shared argument bag.

    `inquirer.prompt(prompts, args)` is modelled by its contract: it asks, in order, every
    question whose name is not yet answered (neither in the seed bag nor earlier in the same
    list), and the user's reply to a question depends only on its name (`user`).
    Each generator's turn then does `Object.assign(args, answers)` followed by
    `Object.assign(args, generator.data)`. */
module Prompting {
  import opened Values
  import opened Generators

  /** The names of a prompt list. */
  function QuestionNames(qs: seq<Question>): set<string>
  {
    if qs == [] then {} else {qs[0].name} + QuestionNames(qs[1..])
  }

  /** The names actually asked, in prompt order: a question is skipped when its name is already
      answered. */
  function Unasked(qs: seq<Question>, answered: set<string>): (asked: seq<string>)
    ensures forall i, j :: 0 <= i < j < |asked| ==> asked[i] != asked[j]
    ensures forall n :: n in asked <==> n in QuestionNames(qs) && n !in answered
  {
    if qs == [] then []
    else if qs[0].name in answered then Unasked(qs[1..], answered)
    else [qs[0].name] + Unasked(qs[1..], answered + {qs[0].name})
  }

  /** The answers the prompt call returns for the questions it asked. */
  function Answers(qs: seq<Question>, seed: map<string, Value>, user: string -> Value): (answers: map<string, Value>)
    ensures answers.Keys == QuestionNames(qs) - seed.Keys
    ensures forall n <- answers.Keys :: answers[n] == user(n)
  {
    map n | n in Unasked(qs, seed.Keys) :: user(n)
  }

  /** One turn of the loop for generator `g`: merge its answers, then its static data. */
  function Turn(bag: map<string, Value>, g: Generator, user: string -> Value): map<string, Value>
  {
    var answered := bag + Answers(g.prompts, bag, user);
    if g.data.Some? then answered + g.data.value else answered
  }

  /** The merge law of one turn: no key is removed, every question of the generator is answered,
      its static data wins over the answers, answers never overwrite a key already present, a
      new key that the data does not set holds the user's answer, and no other key is added. */
  lemma TurnLaw(bag: map<string, Value>, g: Generator, user: string -> Value)
    ensures var after := Turn(bag, g, user);
      && bag.Keys <= after.Keys
      && QuestionNames(g.prompts) <= after.Keys
      && (g.data.Some? ==> forall k <- g.data.value.Keys :: k in after && after[k] == g.data.value[k])
      && (forall k <- bag.Keys :: (g.data.None? || k !in g.data.value) ==> after[k] == bag[k])
      && (forall k <- after.Keys :: k !in bag && (g.data.None? || k !in g.data.value) ==> after[k] == user(k))
      && after.Keys == bag.Keys + QuestionNames(g.prompts) + (if g.data.Some? then g.data.value.Keys else {})
  {
  }

  /** The bag after the turns of all generators in `gs`, in order. */
  function Accumulate(bag: map<string, Value>, gs: seq<Generator>, user: string -> Value): map<string, Value>
  {
    if gs == [] then bag else Turn(Accumulate(bag, gs[..|gs| - 1], user), gs[|gs| - 1], user)
  }

  /** The names asked during the turn of the i-th generator. */
  function AskedAt(bag: map<string, Value>, gs: seq<Generator>, user: string -> Value, i: nat): seq<string>
    requires i < |gs|
  {
    Unasked(gs[i].prompts, Accumulate(bag, gs[..i], user).Keys)
  }

  lemma AccumulateStep(bag: map<string, Value>, gs: seq<Generator>, user: string -> Value, i: nat)
    requires i < |gs|
    ensures Accumulate(bag, gs[..i + 1], user) == Turn(Accumulate(bag, gs[..i], user), gs[i], user)
  {
    assert gs[..i + 1][..i] == gs[..i];
  }

  /** Keys are never removed: the bag after a prefix of the turns is contained in the bag after
      all of them. */
  lemma {:induction false} AccumulateGrows(bag: map<string, Value>, gs: seq<Generator>, user: string -> Value, i: nat)
    requires i <= |gs|
    ensures Accumulate(bag, gs[..i], user).Keys <= Accumulate(bag, gs, user).Keys
  {
    if i < |gs| {
      var init := gs[..|gs| - 1];
      assert init[..i] == gs[..i];
      AccumulateGrows(bag, init, user, i);
      TurnLaw(Accumulate(bag, init, user), gs[|gs| - 1], user);
    } else {
      assert gs[..i] == gs;
    }
  }

  /** Every flag or answer present before the loop is still present after it. */
  lemma KeysNeverRemoved(bag: map<string, Value>, gs: seq<Generator>, user: string -> Value)
    ensures bag.Keys <= Accumulate(bag, gs, user).Keys
  {
    AccumulateGrows(bag, gs, user, 0);
    assert gs[..0] == [];
  }

  /** After the loop every question of every selected generator has a value in the bag. */
  lemma AllPromptsAnswered(bag: map<string, Value>, gs: seq<Generator>, user: string -> Value, i: nat)
    requires i < |gs|
    ensures QuestionNames(gs[i].prompts) <= Accumulate(bag, gs, user).Keys
  {
    AccumulateStep(bag, gs, user, i);
    TurnLaw(Accumulate(bag, gs[..i], user), gs[i], user);
    AccumulateGrows(bag, gs, user, i + 1);
  }

  /** No question is asked twice in a run: the names asked on two different turns are disjoint. */
  lemma NeverAskedTwice(bag: map<string, Value>, gs: seq<Generator>, user: string -> Value, i: nat, j: nat)
    requires i < j < |gs|
    ensures forall n <- AskedAt(bag, gs, user, i) :: n !in AskedAt(bag, gs, user, j)
  {
    AccumulateStep(bag, gs, user, i);
    TurnLaw(Accumulate(bag, gs[..i], user), gs[i], user);
    assert gs[..j][..i + 1] == gs[..i + 1];
    AccumulateGrows(bag, gs[..j], user, i + 1);
  }

  /** A name already in the bag before the loop (a flag, say) is never asked. */
  lemma SeedNeverAsked(bag: map<string, Value>, gs: seq<Generator>, user: string -> Value, j: nat)
    requires j < |gs|
    ensures forall n <- AskedAt(bag, gs, user, j) :: n !in bag
  {
    KeysNeverRemoved(bag, gs[..j], user);
  }

  /** Prompt answers never overwrite: a key that no generator's data sets keeps its value. */
  lemma {:induction false} UntouchedKeyKept(bag: map<string, Value>, gs: seq<Generator>, user: string -> Value, k: string)
    requires k in bag
    requires forall i :: 0 <= i < |gs| && gs[i].data.Some? ==> k !in gs[i].data.value
    ensures k in Accumulate(bag, gs, user) && Accumulate(bag, gs, user)[k] == bag[k]
  {
    if gs != [] {
      var init := gs[..|gs| - 1];
      UntouchedKeyKept(bag, init, user, k);
      TurnLaw(Accumulate(bag, init, user), gs[|gs| - 1], user);
    }
  }

  /** Last write wins: a key set by the data of the i-th generator and by no later generator's
      data ends with that generator's value. */
  lemma {:induction false} LastDataWins(bag: map<string, Value>, gs: seq<Generator>, user: string -> Value, i: nat, k: string)
    requires i < |gs| && gs[i].data.Some? && k in gs[i].data.value
    requires forall j :: i < j < |gs| && gs[j].data.Some? ==> k !in gs[j].data.value
    ensures k in Accumulate(bag, gs, user) && Accumulate(bag, gs, user)[k] == gs[i].data.value[k]
  {
    var init := gs[..|gs| - 1];
    if i < |gs| - 1 {
      LastDataWins(bag, init, user, i, k);
    }
    TurnLaw(Accumulate(bag, init, user), gs[|gs| - 1], user);
  }

  /** The turn that asks a question stores the user's answer to it, unless that generator's own
      data sets the same key. */
  lemma AnsweredOnTurn(bag: map<string, Value>, gs: seq<Generator>, user: string -> Value, i: nat, n: string)
    requires i < |gs| && n in AskedAt(bag, gs, user, i)
    requires gs[i].data.Some? ==> n !in gs[i].data.value
    ensures n in Accumulate(bag, gs[..i + 1], user) && Accumulate(bag, gs[..i + 1], user)[n] == user(n)
  {
    var before := Accumulate(bag, gs[..i], user);
    AccumulateStep(bag, gs, user, i);
    TurnLaw(before, gs[i], user);
    assert n in QuestionNames(gs[i].prompts) && n !in before;
  }

  /** A key no later generator's data sets keeps the value it had after turn i. */
  lemma KeptAfterTurn(bag: map<string, Value>, gs: seq<Generator>, user: string -> Value, i: nat, k: string)
    requires i < |gs| && k in Accumulate(bag, gs[..i + 1], user)
    requires forall j :: i < j < |gs| && gs[j].data.Some? ==> k !in gs[j].data.value
    ensures k in Accumulate(bag, gs, user) && Accumulate(bag, gs, user)[k] == Accumulate(bag, gs[..i + 1], user)[k]
  {
    var after := Accumulate(bag, gs[..i + 1], user);
    var rest := gs[i + 1..];
    forall j | 0 <= j < |rest| && rest[j].data.Some?
      ensures k !in rest[j].data.value
    {
      assert rest[j] == gs[i + 1 + j];
    }
    UntouchedKeyKept(after, rest, user, k);
    assert gs == gs[..i + 1] + rest;
    AccumulateSplit(bag, gs[..i + 1], rest, user);
  }

  /** A user's answer reaches the final bag unless a later generator's data overrides it. */
  lemma AnswerKept(bag: map<string, Value>, gs: seq<Generator>, user: string -> Value, i: nat, n: string)
    requires i < |gs| && n in AskedAt(bag, gs, user, i)
    requires forall j :: i <= j < |gs| && gs[j].data.Some? ==> n !in gs[j].data.value
    ensures n in Accumulate(bag, gs, user) && Accumulate(bag, gs, user)[n] == user(n)
  {
    AnsweredOnTurn(bag, gs, user, i, n);
    KeptAfterTurn(bag, gs, user, i, n);
  }

  /** Running the turns of `a` and then those of `b` is running the turns of `a + b`. */
  lemma {:induction false} AccumulateSplit(bag: map<string, Value>, a: seq<Generator>, b: seq<Generator>, user: string -> Value)
    ensures Accumulate(bag, a + b, user) == Accumulate(Accumulate(bag, a, user), b, user)
  {
    if b == [] {
      assert a + b == a;
    } else {
      var b' := b[..|b| - 1];
      assert (a + b)[..|a + b| - 1] == a + b';
      AccumulateSplit(bag, a, b', user);
    }
  }
}
