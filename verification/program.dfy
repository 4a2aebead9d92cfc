/** `EgglogProgram` and its merge algebra: `combine` (Semigroup), `empty`
    (Monoid), `add` (the consuming `+`), and the flattening into the command
    list the engine runs (`From<EgglogProgram> for EgglogCommandList`). The
    same code appears in src/builder.rs and src/egraph/builder.rs. */
module Program {
  import opened Ast
  import opened Seqs
  import opened Sorts
  import opened Facts

  /** `EgglogProgramSorts`: the sort index and the sorts section. */
  datatype ProgramSorts = ProgramSorts(symbols: set<Symbol>, section: EgglogSorts)

  /** `EgglogProgramFacts`: the fact index and the facts section. */
  datatype ProgramFacts = ProgramFacts(symbols: set<Symbol>, section: EgglogFacts)

  datatype EgglogProgram = EgglogProgram(
    sorts: ProgramSorts,
    facts: ProgramFacts,
    rules: seq<Fragment>,
    schedules: seq<Fragment>,
    bindings: set<Symbol>)
  {
    function SortCommands(): seq<Command> { sorts.section.commands }
    function FactCommands(): seq<Command> { facts.section.commands }
  }

  /** Programs with equal sections, indices, fragment lists and bindings
      are equal. */
  lemma ProgramExt(x: EgglogProgram, y: EgglogProgram)
    requires x.SortCommands() == y.SortCommands() && x.FactCommands() == y.FactCommands()
    requires x.sorts.symbols == y.sorts.symbols && x.facts.symbols == y.facts.symbols
    requires x.rules == y.rules && x.schedules == y.schedules && x.bindings == y.bindings
    ensures x == y
  {
  }

  /** `empty` / `Default`: every section, index and binding set empty. It
      can stand as a merge operand, it flattens to no commands, and its
      indices are exactly the symbols its sections declare. */
  function Empty(): (r: EgglogProgram)
    ensures Mergeable(r)
    ensures ToCommandList(r) == []
    ensures r.sorts.symbols == SymbolsOfSorts(r.SortCommands())
    ensures r.facts.symbols == FactSymbols(r.FactCommands())
  {
    EgglogProgram(ProgramSorts({}, Sorts.Default()), ProgramFacts({}, Facts.Default()), [], [], {})
  }

  /** A program that can stand as the right operand of a merge without a
      panic: its sorts are sort-kind (true of every `EgglogSorts`) and its
      facts are `let` actions (`get_fact_symbol` is applied to each). */
  predicate Mergeable(p: EgglogProgram) {
    Sorts.Valid(p.sorts.section) && AllLet(p.FactCommands())
  }

  /** The merge keeps a right sort only if its first symbol is not in the
      left index. */
  predicate SortIsNew(index: set<Symbol>, c: Command) {
    IsSortKind(c) && SortSymbols(c)[0] !in index
  }

  predicate FactIsNew(index: set<Symbol>, c: Command) {
    IsLet(c) && FactSymbol(c) !in index
  }

  function NewSorts(index: set<Symbol>, cmds: seq<Command>): seq<Command> {
    Filter(cmds, c => SortIsNew(index, c))
  }

  function NewFacts(index: set<Symbol>, cmds: seq<Command>): seq<Command> {
    Filter(cmds, c => FactIsNew(index, c))
  }

  lemma NewSortsAreSortKind(index: set<Symbol>, cmds: seq<Command>)
    ensures AllSortKind(NewSorts(index, cmds))
  {
    var r := NewSorts(index, cmds);
    assert forall i :: 0 <= i < |r| ==> r[i] in r;
  }

  lemma NewFactsAreLets(index: set<Symbol>, cmds: seq<Command>)
    ensures AllLet(NewFacts(index, cmds))
    ensures forall i :: 0 <= i < |NewFacts(index, cmds)| ==> IsAction(NewFacts(index, cmds)[i])
  {
    var r := NewFacts(index, cmds);
    assert forall i :: 0 <= i < |r| ==> r[i] in r;
  }

  /** `combine`: the left program's declarations, then the right program's
      sorts and facts whose (first) symbol the left index does not hold, in
      their order; indices and bindings are unions, fragment lists are
      concatenated. The union keeps the symbols of right declarations that
      the filter dropped. */
  function Combine(a: EgglogProgram, b: EgglogProgram): (r: EgglogProgram)
    requires Mergeable(b)
    ensures |a.SortCommands()| <= |r.SortCommands()| && r.SortCommands()[..|a.SortCommands()|] == a.SortCommands()
    ensures |a.FactCommands()| <= |r.FactCommands()| && r.FactCommands()[..|a.FactCommands()|] == a.FactCommands()
    ensures r.sorts.symbols == a.sorts.symbols + b.sorts.symbols
    ensures r.facts.symbols == a.facts.symbols + b.facts.symbols
    ensures r.bindings == a.bindings + b.bindings
    ensures r.rules == a.rules + b.rules && r.schedules == a.schedules + b.schedules
  {
    var keptSorts := NewSorts(a.sorts.symbols, b.SortCommands());
    var keptFacts := NewFacts(a.facts.symbols, b.FactCommands());
    EgglogProgram(
      ProgramSorts(a.sorts.symbols + b.sorts.symbols, AddSorts(a.sorts.section, keptSorts)),
      ProgramFacts(a.facts.symbols + b.facts.symbols, AddFacts(a.facts.section, keptFacts)),
      a.rules + b.rules,
      a.schedules + b.schedules,
      a.bindings + b.bindings)
  }

  lemma NewSortsSnoc(index: set<Symbol>, s: seq<Command>, x: Command)
    ensures NewSorts(index, s + [x]) == NewSorts(index, s) + (if SortIsNew(index, x) then [x] else [])
  {
    FilterAppend(s, [x], c => SortIsNew(index, c));
    FilterSingleton(x, c => SortIsNew(index, c));
  }

  lemma NewFactsSnoc(index: set<Symbol>, s: seq<Command>, x: Command)
    ensures NewFacts(index, s + [x]) == NewFacts(index, s) + (if FactIsNew(index, x) then [x] else [])
  {
    FilterAppend(s, [x], c => FactIsNew(index, c));
    FilterSingleton(x, c => FactIsNew(index, c));
  }

  /** The element-by-element filter `add` runs over the right sorts. */
  method KeepNewSorts(index: set<Symbol>, cmds: seq<Command>) returns (kept: seq<Command>)
    requires AllSortKind(cmds)
    ensures kept == NewSorts(index, cmds)
  {
    kept := [];
    var i := 0;
    while i < |cmds|
      invariant 0 <= i <= |cmds|
      invariant kept == NewSorts(index, cmds[..i])
    {
      NewSortsSnoc(index, cmds[..i], cmds[i]);
      assert cmds[..i + 1] == cmds[..i] + [cmds[i]];
      if SortIsNew(index, cmds[i]) {
        kept := kept + [cmds[i]];
      }
      i := i + 1;
    }
    assert cmds[..i] == cmds;
  }

  /** The element-by-element filter `add` runs over the right facts. */
  method KeepNewFacts(index: set<Symbol>, cmds: seq<Command>) returns (kept: seq<Command>)
    requires AllLet(cmds)
    ensures kept == NewFacts(index, cmds)
  {
    kept := [];
    var i := 0;
    while i < |cmds|
      invariant 0 <= i <= |cmds|
      invariant kept == NewFacts(index, cmds[..i])
    {
      NewFactsSnoc(index, cmds[..i], cmds[i]);
      assert cmds[..i + 1] == cmds[..i] + [cmds[i]];
      if FactIsNew(index, cmds[i]) {
        kept := kept + [cmds[i]];
      }
      i := i + 1;
    }
    assert cmds[..i] == cmds;
  }

  /** `add` (`self + rhs`): filters the right sections element by element
      against the left indices, then extends the indices, the fragment lists
      and the bindings in place. It yields the five fields `combine` yields. */
  method Add(self: EgglogProgram, rhs: EgglogProgram) returns (r: EgglogProgram)
    requires Mergeable(rhs)
    ensures r == Combine(self, rhs)
  {
    var keptSorts := KeepNewSorts(self.sorts.symbols, rhs.SortCommands());
    var sorts := ProgramSorts(self.sorts.symbols + rhs.sorts.symbols, AddSorts(self.sorts.section, keptSorts));
    var keptFacts := KeepNewFacts(self.facts.symbols, rhs.FactCommands());
    var facts := ProgramFacts(self.facts.symbols + rhs.facts.symbols, AddFacts(self.facts.section, keptFacts));
    r := EgglogProgram(sorts, facts, self.rules + rhs.rules, self.schedules + rhs.schedules, self.bindings + rhs.bindings);
    ghost var expected := Combine(self, rhs);
    assert r.sorts == expected.sorts;
    assert r.facts == expected.facts;
  }

  /** The flattened command list: sorts, then facts, then every rule
      fragment in list order, then every schedule fragment. Bindings are
      not emitted. */
  function ToCommandList(p: EgglogProgram): (r: seq<Command>)
    ensures |r| == |p.SortCommands()| + |p.FactCommands()| + SumLengths(p.rules) + SumLengths(p.schedules)
    ensures r[..|p.SortCommands()|] == p.SortCommands()
    ensures r[|p.SortCommands()|..|p.SortCommands()| + |p.FactCommands()|] == p.FactCommands()
    ensures r[|p.SortCommands()| + |p.FactCommands()|..] == Concat(p.rules) + Concat(p.schedules)
  {
    var r := p.SortCommands() + (p.FactCommands() + (Concat(p.rules) + Concat(p.schedules)));
    assert r[|p.SortCommands()|..] == p.FactCommands() + (Concat(p.rules) + Concat(p.schedules));
    r
  }

  /** The flattened list as the concatenation it is built from. */
  lemma ToCommandListParts(p: EgglogProgram)
    ensures ToCommandList(p) == p.SortCommands() + (p.FactCommands() + (Concat(p.rules) + Concat(p.schedules)))
  {
  }

  /** What the `sorts` stage of either builder stores: the section and the
      set of all its symbols, variant names included. */
  function SortsEntry(s: EgglogSorts): ProgramSorts
    requires Sorts.Valid(s)
  {
    ProgramSorts(SymbolsOfSorts(s.commands), s)
  }

  /** What the `facts` stage of either builder stores: the section and the
      set of its let-bound names. */
  function FactsEntry(f: EgglogFacts): ProgramFacts
    requires AllLet(f.commands)
  {
    ProgramFacts(FactSymbols(f.commands), f)
  }
}
