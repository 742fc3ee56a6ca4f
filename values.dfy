/** Values of the argument bag: what the command-line parser produces for flags and
    positional tokens, and what the prompts answer. */
module Values {

  datatype Option<+T> = None | Some(value: T)

  /** A value held under one key of the argument bag. Flags parse to booleans, strings or
      numbers; the positional tokens and checkbox answers are arrays of strings. */
  datatype Value = Bool(b: bool) | Str(s: string) | Num(n: int) | Strs(items: seq<string>)

  /** JavaScript truthiness of a value: `false`, `""` and `0` are falsy, every array is truthy. */
  predicate IsTruthy(v: Value)
  {
    match v
    case Bool(b) => b
    case Str(s) => s != ""
    case Num(n) => n != 0
    case Strs(_) => true
  }

  /** `args?.key` used as a condition: a missing key reads as `undefined`, which is falsy. */
  predicate Flag(bag: map<string, Value>, key: string)
  {
    key in bag && IsTruthy(bag[key])
  }

  /** The reserved key under which the parser collects the positional tokens. */
  const PositionalKey: string := "_"

  /** The shape the parser always produces: the positional key holds an array of strings. */
  predicate IsParsed(bag: map<string, Value>)
  {
    PositionalKey in bag && bag[PositionalKey].Strs?
  }

  /** `args._`, the positional tokens in command-line order. */
  function Positionals(bag: map<string, Value>): seq<string>
    requires IsParsed(bag)
  {
    bag[PositionalKey].items
  }

  /** Appending to a log is associative. */
  lemma AppendAssoc<T>(a: seq<T>, b: seq<T>, c: seq<T>)
    ensures (a + b) + c == a + (b + c)
  {
  }
}
