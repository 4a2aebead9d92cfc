/** The slice of the egglog command syntax tree the program layer looks at:
    each command's tag and the names it declares. Spans, expressions and
    schemas are kept as opaque `Body` text. */
module Ast {

  /** An interned egglog name, compared by value. */
  type Symbol = string

  /** Everything of a command other than its tag and declared names. */
  type Body = string

  /** One constructor of a `datatype` declaration. */
  datatype Variant = Variant(name: Symbol, types: seq<Symbol>)

  /** egglog actions; only `let` binds a name. The other action forms
      (set, union, change, delete, panic, bare expression) are one tag here. */
  datatype Action =
    | Let(name: Symbol, value: Body)
    | OtherAction(value: Body)

  datatype Command =
    | Sort(name: Symbol, body: Body)
    | Datatype(name: Symbol, variants: seq<Variant>)
    | Relation(name: Symbol, body: Body)
    | Function(name: Symbol, body: Body)
    | Constructor(name: Symbol, body: Body)
    | Action(action: Action)
    | AddRuleset(ruleset: Symbol)
    | Rule(body: Body)
    | Rewrite(body: Body)
    | RunSchedule(body: Body)
    | OtherCommand(body: Body)

  /** An `EgglogRules` or `EgglogSchedules` value: one batch of commands
      supplied together, opaque to the program layer. */
  type Fragment = seq<Command>
}
