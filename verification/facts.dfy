/** `EgglogFacts` and `get_fact_symbol` (src/facts.rs, duplicated in
    src/egraph/builder.rs). */
module Facts {
  import opened Ast
  import opened Seqs

  /** The command kind `EgglogFacts` admits: any action. */
  predicate IsAction(c: Command) {
    c.Action?
  }

  /** The command shape `get_fact_symbol` accepts: a `let` action. */
  predicate IsLet(c: Command) {
    c.Action? && c.action.Let?
  }

  predicate AllLet(cmds: seq<Command>) {
    forall i :: 0 <= i < |cmds| ==> IsLet(cmds[i])
  }

  /** `get_fact_symbol`: the name a `let` binds. A non-let action and a
      non-action command panic in the source, which is the precondition. */
  function FactSymbol(c: Command): (r: Symbol)
    requires IsLet(c)
    ensures c == Action(Let(r, c.action.value))
  {
    c.action.name
  }

  /** The symbol index built by the `facts` stage: the let-bound names. */
  function FactSymbols(cmds: seq<Command>): (r: set<Symbol>)
    requires AllLet(cmds)
    ensures forall i :: 0 <= i < |cmds| ==> FactSymbol(cmds[i]) in r
    ensures forall x :: x in r ==> exists i :: 0 <= i < |cmds| && FactSymbol(cmds[i]) == x
    decreases |cmds|
  {
    if |cmds| == 0 then {} else {FactSymbol(cmds[0])} + FactSymbols(cmds[1..])
  }

  lemma {:induction false} FactSymbolsAppend(a: seq<Command>, b: seq<Command>)
    requires AllLet(a) && AllLet(b)
    ensures AllLet(a + b)
    ensures FactSymbols(a + b) == FactSymbols(a) + FactSymbols(b)
  {
    assert AllLet(a + b) by {
      forall i | 0 <= i < |a + b|
        ensures IsLet((a + b)[i])
      {
        if i < |a| { assert (a + b)[i] == a[i]; } else { assert (a + b)[i] == b[i - |a|]; }
      }
    }
    var l := FactSymbols(a + b);
    var rr := FactSymbols(a) + FactSymbols(b);
    forall x | x in l ensures x in rr {
      var i :| 0 <= i < |a + b| && FactSymbol((a + b)[i]) == x;
      if i < |a| { assert (a + b)[i] == a[i]; } else { assert (a + b)[i] == b[i - |a|]; }
    }
    forall x | x in rr ensures x in l {
      if x in FactSymbols(a) {
        var i :| 0 <= i < |a| && FactSymbol(a[i]) == x;
        assert (a + b)[i] == a[i];
      } else {
        var i :| 0 <= i < |b| && FactSymbol(b[i]) == x;
        assert (a + b)[|a| + i] == b[i];
      }
    }
  }

  /** `EgglogFacts`: a command list only ever extended through `AddFacts`. */
  datatype EgglogFacts = EgglogFacts(commands: seq<Command>)

  /** What every `EgglogFacts` value satisfies: it holds actions only. It
      need not hold let actions only, so `FactSymbol` may not apply. */
  predicate Valid(f: EgglogFacts) {
    forall i :: 0 <= i < |f.commands| ==> IsAction(f.commands[i])
  }

  function Default(): EgglogFacts {
    EgglogFacts([])
  }

  /** `add_facts`: keeps the existing commands and appends the action
      commands of `factList` in their input order, dropping the rest. */
  function AddFacts(f: EgglogFacts, factList: seq<Command>): (r: EgglogFacts)
    ensures Valid(f) ==> Valid(r)
  {
    var r := EgglogFacts(f.commands + Filter(factList, IsAction));
    FilterIsSubsequence(factList, IsAction);
    r
  }

  /** What `add_facts` keeps: the old commands as a prefix, then exactly the
      action commands of `factList`, in their order; a list with none of them
      changes nothing. */
  lemma AddFactsSpec(f: EgglogFacts, factList: seq<Command>)
    ensures |f.commands| <= |AddFacts(f, factList).commands| && AddFacts(f, factList).commands[..|f.commands|] == f.commands
    ensures forall c :: c in AddFacts(f, factList).commands[|f.commands|..] ==> c in factList && IsAction(c)
    ensures forall c :: c in factList && IsAction(c) ==> c in AddFacts(f, factList).commands[|f.commands|..]
    ensures IsSubsequence(AddFacts(f, factList).commands[|f.commands|..], factList)
    ensures forall c :: multiset(AddFacts(f, factList).commands[|f.commands|..])[c] == if IsAction(c) then multiset(factList)[c] else 0
    ensures (forall i :: 0 <= i < |factList| ==> !IsAction(factList[i])) ==> AddFacts(f, factList) == f
  {
    var kept := Filter(factList, IsAction);
    assert AddFacts(f, factList).commands[|f.commands|..] == kept;
    FilterIsSubsequence(factList, IsAction);
    FilterCount(factList, IsAction);
    if forall i :: 0 <= i < |factList| ==> !IsAction(factList[i]) {
      FilterNone(factList, IsAction);
    }
  }

  /** A list that is already all actions is appended unchanged. */
  lemma AddFactsOfActions(f: EgglogFacts, factList: seq<Command>)
    requires forall i :: 0 <= i < |factList| ==> IsAction(factList[i])
    ensures AddFacts(f, factList).commands == f.commands + factList
  {
    FilterAll(factList, IsAction);
  }

  /** Adding two batches one after the other is adding their concatenation. */
  lemma AddFactsTwice(f: EgglogFacts, xs: seq<Command>, ys: seq<Command>)
    ensures AddFacts(AddFacts(f, xs), ys) == AddFacts(f, xs + ys)
  {
    FilterAppend(xs, ys, IsAction);
    var a, b := Filter(xs, IsAction), Filter(ys, IsAction);
    calc {
      AddFacts(AddFacts(f, xs), ys).commands;
      (f.commands + a) + b;
      f.commands + (a + b);
      AddFacts(f, xs + ys).commands;
    }
  }

  /** `add_facts` admits an action `get_fact_symbol` rejects: a facts
      section is not guaranteed to be symbol-extractable. */
  lemma AddFactsAdmitsNonLet(v: Body)
    ensures var f := AddFacts(Default(), [Action(OtherAction(v))]);
      Valid(f) && |f.commands| == 1 && !AllLet(f.commands)
  {
    var f := AddFacts(Default(), [Action(OtherAction(v))]);
    assert f.commands == [Action(OtherAction(v))];
    assert !IsLet(f.commands[0]);
  }
}
