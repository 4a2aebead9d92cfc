/** The repository's unit tests restated over concrete declarations, and
    concrete inputs for the behaviours of the merge that its invariants do
    not rule out. The merge tests load `.egg` fixtures; here they are stated
    over any programs with the fixtures' section and fragment sizes. */
module Scenarios {
  import opened Wrappers
  import opened Ast
  import opened Seqs
  import opened Sorts
  import opened Facts
  import opened Program
  import opened MergeLaws
  import StagedBuilder
  import LinearBuilder

  /** The sorts test: one each of Sort, Datatype, Relation and Function. */
  lemma SortsFromCommands()
    ensures var s := AddSorts(Sorts.Default(),
      [Sort("sort1", ""), Datatype("datatype1", []), Relation("relation1", ""), Function("func1", "")]);
      |s.commands| == 4 && Sorts.Valid(s)
  {
    var l := [Sort("sort1", ""), Datatype("datatype1", []), Relation("relation1", ""), Function("func1", "")];
    assert AllSortKind(l);
    AddSortsOfSortKinds(Sorts.Default(), l);
  }

  /** The facts test: one `let`. */
  lemma FactsFromCommands()
    ensures var f := AddFacts(Facts.Default(), [Action(Let("var1", "0"))]);
      |f.commands| == 1 && AllLet(f.commands) && FactSymbols(f.commands) == {"var1"}
  {
    AddFactsOfActions(Facts.Default(), [Action(Let("var1", "0"))]);
  }

  /** A program as both builders build it from one argument per stage. */
  function Built(s: EgglogSorts, f: EgglogFacts, rs: Fragment, ss: Fragment, bs: set<Symbol>): (r: EgglogProgram)
    requires Sorts.Valid(s) && AllLet(f.commands)
    ensures Indexed(r) && r.SortCommands() == s.commands && r.FactCommands() == f.commands
  {
    EgglogProgram(SortsEntry(s), FactsEntry(f), [rs], [ss], bs)
  }

  lemma BuiltByStagedBuilder(s: EgglogSorts, f: EgglogFacts, rs: Fragment, ss: Fragment, bs: set<Symbol>)
    requires Sorts.Valid(s) && AllLet(f.commands)
    ensures StagedBuilder.Build([StagedBuilder.SetSorts(s), StagedBuilder.SetFacts(f), StagedBuilder.SetRules(rs),
                                 StagedBuilder.SetSchedules(ss), StagedBuilder.SetBindings(bs)],
                                StagedBuilder.CallProgram) == Success(Built(s, f, rs, ss, bs))
  {
    LinearBuilder.StagedRunOfPipeline(s, f, rs, ss, bs);
    StagedBuilder.MergeTestOrder(s, f, rs, bs, ss);
  }

  /** The index of a one-declaration section. */
  lemma SymbolsOfOne(c: Command)
    requires IsSortKind(c)
    ensures SymbolsOfSorts([c]) == set x | x in SortSymbols(c)
  {
    assert [c][1..] == [];
  }

  /** The command list of a program with two rule and two schedule
      fragments. */
  lemma CommandsOfTwoFragments(m: EgglogProgram, r1: Fragment, r2: Fragment, s1: Fragment, s2: Fragment)
    requires m.rules == [r1] + [r2] && m.schedules == [s1] + [s2]
    ensures ToCommandList(m) == m.SortCommands() + m.FactCommands() + r1 + r2 + s1 + s2
  {
    assert Concat(m.rules) == r1 + r2 by {
      ConcatAppend([r1], [r2]);
      assert Concat([r1]) == r1 && Concat([r2]) == r2;
    }
    assert Concat(m.schedules) == s1 + s2 by {
      ConcatAppend([s1], [s2]);
      assert Concat([s1]) == s1 && Concat([s2]) == s2;
    }
    ToCommandListParts(m);
    var sc, fc := m.SortCommands(), m.FactCommands();
    assert sc + (fc + ((r1 + r2) + (s1 + s2))) == sc + fc + r1 + r2 + s1 + s2;
  }

  /** The merge test, over programs of the fixtures' shape: a program with
      eight sort declarations, one fact, one rule fragment of two commands,
      one schedule fragment of one command and one binding, and an update
      that repeats the eight declarations, adds three under new names, has
      no facts, and brings its own two-command rule fragment, one-command
      schedule fragment and two other bindings. The merge has 11 sorts, 1
      fact, 2 rule and 2 schedule fragments, 3 bindings, and 18 commands in
      the order the test checks (sorts, the fact, the rule fragments, the
      schedules). */
  lemma FixtureShapedMerge(a: EgglogProgram, b: EgglogProgram, ext: seq<Command>,
                           r1: Fragment, r2: Fragment, s1: Fragment, s2: Fragment)
    requires AllSortKind(a.SortCommands()) && SymbolsOfSorts(a.SortCommands()) <= a.sorts.symbols
    requires |a.SortCommands()| == 8 && |a.FactCommands()| == 1
    requires a.rules == [r1] && a.schedules == [s1] && |r1| == 2 && |s1| == 1
    requires Mergeable(b) && AllSortKind(ext) && |ext| == 3 && b.SortCommands() == a.SortCommands() + ext
    requires forall k :: 0 <= k < |ext| ==> ext[k].name !in a.sorts.symbols
    requires b.FactCommands() == [] && b.rules == [r2] && b.schedules == [s2] && |r2| == 2 && |s2| == 1
    requires |a.bindings| == 1 && |b.bindings| == 2 && a.bindings !! b.bindings
    ensures var m := Combine(a, b);
      && |m.SortCommands()| == 11 && |m.FactCommands()| == 1
      && |m.rules| == 2 && |m.schedules| == 2 && |m.bindings| == 3
      && ToCommandList(m) == b.SortCommands() + a.FactCommands() + r1 + r2 + s1 + s2
      && |ToCommandList(m)| == 18
  {
    var m := Combine(a, b);
    CombineExtendsSorts(a, b, ext);
    CommandsOfTwoFragments(m, r1, r2, s1, s2);
    assert a.bindings * b.bindings == {};
  }

  /** The duplicate test, over programs of the fixture's shape: an update
      carrying the program's own eight declarations and index, no facts and
      empty fragments leaves the 8 sorts and the index as they were, and
      the 12 commands of the program. */
  lemma DuplicateSortsMerge(a: EgglogProgram, b: EgglogProgram, r1: Fragment, s1: Fragment)
    requires Indexed(a) && |a.SortCommands()| == 8 && |a.FactCommands()| == 1
    requires a.rules == [r1] && a.schedules == [s1] && |r1| == 2 && |s1| == 1
    requires Mergeable(b) && b.sorts == a.sorts && b.FactCommands() == [] && b.facts.symbols == {}
    requires b.rules == [[]] && b.schedules == [[]]
    ensures var m := Combine(a, b);
      && m.sorts == a.sorts && |m.SortCommands()| == 8 && |m.FactCommands()| == 1
      && |m.rules| == 2 && |m.schedules| == 2 && |ToCommandList(m)| == 12
  {
    CombineWithOwnSorts(a, b);
    assert SumLengths(a.rules) == 2 && SumLengths(a.schedules) == 1;
    assert SumLengths(b.rules) == 0 && SumLengths(b.schedules) == 0;
  }

  function FooProgram(): EgglogProgram {
    Built(EgglogSorts([Sort("Foo", "i64")]), EgglogFacts([Action(Let("x", "1"))]), [], [], {})
  }

  function FooBarUpdate(): EgglogProgram {
    Built(EgglogSorts([Sort("Foo", "String"), Sort("Bar", "i64")]), Facts.Default(), [], [], {})
  }

  lemma FooBarParts()
    ensures FooProgram().SortCommands() == [Sort("Foo", "i64")] && FooProgram().sorts.symbols == {"Foo"}
    ensures FooBarUpdate().SortCommands() == [Sort("Foo", "String"), Sort("Bar", "i64")]
    ensures FooBarUpdate().sorts.symbols == {"Foo", "Bar"} && Mergeable(FooBarUpdate())
  {
    var sb := [Sort("Foo", "String"), Sort("Bar", "i64")];
    SymbolsOfOne(Sort("Foo", "i64"));
    SymbolsOfOne(sb[0]);
    SymbolsOfOne(sb[1]);
    assert sb == [sb[0]] + [sb[1]];
    SymbolsOfSortsAppend([sb[0]], [sb[1]]);
  }

  lemma FooBarKept()
    ensures NewSorts({"Foo"}, [Sort("Foo", "String"), Sort("Bar", "i64")]) == [Sort("Bar", "i64")]
  {
    var x, y := Sort("Foo", "String"), Sort("Bar", "i64");
    NewSortsSnoc({"Foo"}, [], x);
    assert [x] + [y] == [x, y];
    NewSortsSnoc({"Foo"}, [x], y);
    assert !SortIsNew({"Foo"}, x) && SortIsNew({"Foo"}, y);
  }

  /** The Foo/Bar merge, for any program declaring one `Foo` and any update
      declaring another `Foo` and a `Bar` (as `FooProgram` and
      `FooBarUpdate` do): the second `Foo` is dropped and `Bar` appended. */
  lemma FooBarMerge(a: EgglogProgram, b: EgglogProgram)
    requires a.SortCommands() == [Sort("Foo", "i64")] && a.sorts.symbols == {"Foo"}
    requires b.SortCommands() == [Sort("Foo", "String"), Sort("Bar", "i64")] && b.sorts.symbols == {"Foo", "Bar"}
    requires Mergeable(b)
    ensures Combine(a, b).SortCommands() == [Sort("Foo", "i64"), Sort("Bar", "i64")]
    ensures Combine(a, b).sorts.symbols == {"Foo", "Bar"}
  {
    FooBarKept();
    CombineSections(a, b);
  }

  /** One right declaration, dropped or kept. */
  lemma NewSortsOfOne(index: set<Symbol>, c: Command)
    ensures NewSorts(index, [c]) == if SortIsNew(index, c) then [c] else []
  {
    NewSortsSnoc(index, [], c);
    assert [] + [c] == [c];
  }

  /** The index after a merge can hold symbols no kept declaration has:
      merging a datatype `Foo` with variant `Baz` into a program with a sort
      `Foo` drops the datatype but indexes `Baz`. Both operands are exactly
      indexed; the merge is not. */
  lemma CombinedIndexNotExact(a: EgglogProgram, b: EgglogProgram)
    requires Indexed(a) && a.SortCommands() == [Sort("Foo", "i64")]
    requires Indexed(b) && b.SortCommands() == [Datatype("Foo", [Variant("Baz", [])])]
    ensures Combine(a, b).SortCommands() == a.SortCommands()
    ensures "Baz" in Combine(a, b).sorts.symbols
    ensures !Indexed(Combine(a, b))
  {
    var d := Datatype("Foo", [Variant("Baz", [])]);
    SymbolsOfOne(Sort("Foo", "i64"));
    SymbolsOfOne(d);
    assert SortSymbols(d) == ["Foo", "Baz"];
    assert "Baz" in b.sorts.symbols && "Baz" !in a.sorts.symbols && "Foo" in a.sorts.symbols;
    NewSortsOfOne(a.sorts.symbols, d);
    CombineSections(a, b);
  }

  /** Two right sorts with the same name both survive the merge. */
  lemma RightDuplicatesKept(b: EgglogProgram)
    requires Mergeable(b) && b.SortCommands() == [Sort("X", "i64"), Sort("X", "String")]
    ensures Combine(Empty(), b).SortCommands() == b.SortCommands()
  {
    FilterAll(b.SortCommands(), c => SortIsNew({}, c));
    CombineSections(Empty(), b);
  }

  /** A left variant name drops a right sort declared under that name. */
  lemma VariantShadowsRightSort(a: EgglogProgram, b: EgglogProgram)
    requires Indexed(a) && a.SortCommands() == [Datatype("T", [Variant("Bar", [])])]
    requires Mergeable(b) && b.SortCommands() == [Sort("Bar", "i64")]
    ensures Combine(a, b).SortCommands() == a.SortCommands()
  {
    var d := Datatype("T", [Variant("Bar", [])]);
    SymbolsOfOne(d);
    assert SortSymbols(d) == ["T", "Bar"];
    assert "Bar" in a.sorts.symbols;
    NewSortsOfOne(a.sorts.symbols, Sort("Bar", "i64"));
    CombineSections(a, b);
  }

  /** Two datatypes with different names and a shared variant both stay. */
  lemma CollidingVariantKept(a: EgglogProgram, b: EgglogProgram)
    requires Indexed(a) && a.SortCommands() == [Datatype("T", [Variant("V", [])])]
    requires Mergeable(b) && b.SortCommands() == [Datatype("U", [Variant("V", [])])]
    ensures Combine(a, b).SortCommands() == a.SortCommands() + b.SortCommands()
  {
    var d := Datatype("T", [Variant("V", [])]);
    SymbolsOfOne(d);
    assert SortSymbols(d) == ["T", "V"];
    assert "U" !in a.sorts.symbols;
    NewSortsOfOne(a.sorts.symbols, Datatype("U", [Variant("V", [])]));
    CombineSections(a, b);
  }

  /** `facts` after `bindings` moves the facts axis back to `FactsPresent`:
      `variables` is then refused, while `definitions` still carries the
      earlier bindings. */
  lemma FactsAfterBindings(s: EgglogSorts, f: EgglogFacts, bs: set<Symbol>)
    requires Sorts.Valid(s) && AllLet(f.commands)
    ensures var calls := [StagedBuilder.SetSorts(s), StagedBuilder.SetFacts(f), StagedBuilder.SetBindings(bs),
                          StagedBuilder.SetFacts(f)];
      && StagedBuilder.Build(calls, StagedBuilder.CallVariables) == Failure(StagedBuilder.InvalidBuilderState)
      && StagedBuilder.Build(calls, StagedBuilder.CallDefinitions).Success?
      && StagedBuilder.Build(calls, StagedBuilder.CallDefinitions).value.bindings == bs
  {
    var calls := [StagedBuilder.SetSorts(s), StagedBuilder.SetFacts(f), StagedBuilder.SetBindings(bs),
                  StagedBuilder.SetFacts(f)];
    assert calls[..3][..2][..1][..0] == [];
    assert calls[..3][..2][..1] == calls[..1];
    assert calls[..3][..2] == calls[..2];
    var b1 := StagedBuilder.WithSorts(StagedBuilder.Initialize(), s);
    assert StagedBuilder.Run(calls[..1]) == Success(b1);
    var b2 := StagedBuilder.WithFacts(b1, f);
    assert StagedBuilder.Run(calls[..2]) == Success(b2);
    var b3 := StagedBuilder.WithBindings(b2, bs);
    assert StagedBuilder.Run(calls[..3]) == Success(b3);
    var b4 := StagedBuilder.WithFacts(b3, f);
    assert StagedBuilder.Run(calls) == Success(b4);
    assert b4.factsAxis == StagedBuilder.FactsPresent && b4.bindings == Some(bs);
  }

  /** A facts section holding a non-let action builds with `add_facts` but
      is refused by the `facts` stage, whose symbol extraction panics. */
  lemma NonLetFactRefused(s: EgglogSorts)
    requires Sorts.Valid(s)
    ensures var f := AddFacts(Facts.Default(), [Action(OtherAction("(set (f) 1)"))]);
      StagedBuilder.Build([StagedBuilder.SetSorts(s), StagedBuilder.SetFacts(f)], StagedBuilder.CallDefinitions)
        == Failure(StagedBuilder.UnsupportedCommand)
  {
    var f := AddFacts(Facts.Default(), [Action(OtherAction("(set (f) 1)"))]);
    AddFactsOfActions(Facts.Default(), [Action(OtherAction("(set (f) 1)"))]);
    var calls := [StagedBuilder.SetSorts(s), StagedBuilder.SetFacts(f)];
    assert calls[..1][..0] == [];
    assert StagedBuilder.Run(calls[..1]) == Success(StagedBuilder.WithSorts(StagedBuilder.Initialize(), s));
    assert !IsLet(f.commands[0]);
  }
}
