/** The linear `EgglogProgramBuilder<State>` of src/egraph/builder.rs: one
    marker state per stage, each stage available only in the state before
    it, so the only chain is new -> sorts -> facts -> rules -> schedules ->
    bindings -> program. The marker type is a runtime tag here. */
module LinearBuilder {
  import opened Wrappers
  import opened Ast
  import opened Sorts
  import opened Facts
  import opened Program
  import opened MergeLaws
  import StagedBuilder

  datatype Stage = InitState | SortsState | FactsState | RulesState | SchedulesState | BindingsState

  /** How many stages lie behind a builder in `s`. */
  function Rank(s: Stage): nat {
    match s
    case InitState => 0
    case SortsState => 1
    case FactsState => 2
    case RulesState => 3
    case SchedulesState => 4
    case BindingsState => 5
  }

  datatype Builder = Builder(
    stage: Stage,
    sorts: Option<ProgramSorts>,
    facts: Option<ProgramFacts>,
    rules: Option<seq<Fragment>>,
    schedules: Option<seq<Fragment>>,
    bindings: Option<set<Symbol>>)

  /** A builder in a state holds exactly the slots of the stages behind it,
      each index exact and each fragment list a single fragment. */
  predicate Inv(b: Builder) {
    && (b.sorts.Some? <==> Rank(b.stage) >= 1)
    && (b.facts.Some? <==> Rank(b.stage) >= 2)
    && (b.rules.Some? <==> Rank(b.stage) >= 3)
    && (b.schedules.Some? <==> Rank(b.stage) >= 4)
    && (b.bindings.Some? <==> Rank(b.stage) >= 5)
    && (b.sorts.Some? ==> Sorts.Valid(b.sorts.value.section) && b.sorts.value == SortsEntry(b.sorts.value.section))
    && (b.facts.Some? ==> AllLet(b.facts.value.section.commands) && b.facts.value == FactsEntry(b.facts.value.section))
    && (b.rules.Some? ==> |b.rules.value| == 1)
    && (b.schedules.Some? ==> |b.schedules.value| == 1)
  }

  /** `new`: the `InitState` builder with nothing set. */
  function New(): (r: Builder)
    ensures Inv(r) && r.stage == InitState
  {
    Builder(InitState, None, None, None, None, None)
  }

  /** `sorts`: carries the facts and rules slots over (empty on the only
      path here) and clears schedules and bindings. */
  function WithSorts(b: Builder, sorts: EgglogSorts): (r: Builder)
    requires b.stage == InitState
    requires Sorts.Valid(sorts)
    ensures Inv(b) ==> Inv(r)
    ensures r.stage == SortsState && r.sorts.Some? && r.sorts.value.section == sorts
    ensures r.sorts.value.symbols == SymbolsOfSorts(sorts.commands)
    ensures r.facts == b.facts && r.rules == b.rules && r.schedules.None? && r.bindings.None?
  {
    Builder(SortsState, Some(SortsEntry(sorts)), b.facts, b.rules, None, None)
  }

  /** `facts`: stores the section with its let-bound names; clears
      schedules and bindings. */
  function WithFacts(b: Builder, facts: EgglogFacts): (r: Builder)
    requires b.stage == SortsState
    requires AllLet(facts.commands)
    ensures Inv(b) ==> Inv(r)
    ensures r.stage == FactsState && r.facts.Some? && r.facts.value.section == facts
    ensures r.facts.value.symbols == FactSymbols(facts.commands)
    ensures r.sorts == b.sorts && r.rules == b.rules && r.schedules.None? && r.bindings.None?
  {
    Builder(FactsState, b.sorts, Some(FactsEntry(facts)), b.rules, None, None)
  }

  /** `rules`: wraps the fragment as a one-element list; clears schedules
      and bindings. */
  function WithRules(b: Builder, rules: Fragment): (r: Builder)
    requires b.stage == FactsState
    ensures Inv(b) ==> Inv(r)
    ensures r.stage == RulesState && r.rules == Some([rules])
    ensures r.sorts == b.sorts && r.facts == b.facts && r.schedules.None? && r.bindings.None?
  {
    Builder(RulesState, b.sorts, b.facts, Some([rules]), None, None)
  }

  /** `schedules`: wraps the fragment as a one-element list; clears
      bindings. */
  function WithSchedules(b: Builder, schedules: Fragment): (r: Builder)
    requires b.stage == RulesState
    ensures Inv(b) ==> Inv(r)
    ensures r.stage == SchedulesState && r.schedules == Some([schedules])
    ensures r.sorts == b.sorts && r.facts == b.facts && r.rules == b.rules && r.bindings.None?
  {
    Builder(SchedulesState, b.sorts, b.facts, b.rules, Some([schedules]), None)
  }

  function WithBindings(b: Builder, bindings: set<Symbol>): (r: Builder)
    requires b.stage == SchedulesState
    ensures Inv(b) ==> Inv(r)
    ensures r.stage == BindingsState && r.bindings == Some(bindings)
    ensures r.sorts == b.sorts && r.facts == b.facts && r.rules == b.rules && r.schedules == b.schedules
  {
    Builder(BindingsState, b.sorts, b.facts, b.rules, b.schedules, Some(bindings))
  }

  /** `program`: every slot is `expect`ed. */
  function BuildProgram(b: Builder): (r: EgglogProgram)
    requires b.stage == BindingsState
    requires b.sorts.Some? && b.facts.Some? && b.rules.Some? && b.schedules.Some? && b.bindings.Some?
    ensures Inv(b) ==> Indexed(r) && |r.rules| == 1 && |r.schedules| == 1
    ensures r.sorts == b.sorts.value && r.facts == b.facts.value && r.bindings == b.bindings.value
    ensures r.rules == b.rules.value && r.schedules == b.schedules.value
  {
    EgglogProgram(b.sorts.value, b.facts.value, b.rules.value, b.schedules.value, b.bindings.value)
  }

  /** None of the `expect`s in `program` can fail: every slot is set on the
      path to `BindingsState`. */
  lemma ProgramTotal(b: Builder)
    requires Inv(b) && b.stage == BindingsState
    ensures b.sorts.Some? && b.facts.Some? && b.rules.Some? && b.schedules.Some? && b.bindings.Some?
  {
  }

  /** The whole chain: the sorts and facts with exact indices, one rule
      fragment, one schedule fragment, the given bindings. */
  lemma Pipeline(s: EgglogSorts, f: EgglogFacts, rs: Fragment, ss: Fragment, bs: set<Symbol>)
    requires Sorts.Valid(s) && AllLet(f.commands)
    ensures BuildProgram(WithBindings(WithSchedules(WithRules(WithFacts(WithSorts(New(), s), f), rs), ss), bs))
      == EgglogProgram(SortsEntry(s), FactsEntry(f), [rs], [ss], bs)
  {
  }

  // ---------------------------------------------------------------------
  // Which call chains the marker types accept

  /** The position of each stage in the one permitted chain. */
  function CallRank(c: StagedBuilder.Call): nat {
    match c
    case SetSorts(_) => 1
    case SetFacts(_) => 2
    case SetRules(_) => 3
    case SetSchedules(_) => 4
    case SetBindings(_) => 5
  }

  function Apply(b: Builder, c: StagedBuilder.Call): (r: Builder)
    requires CallRank(c) == Rank(b.stage) + 1 && StagedBuilder.Supported(c)
    ensures Inv(b) ==> Inv(r)
    ensures Rank(r.stage) == CallRank(c)
  {
    match c
    case SetSorts(s) => WithSorts(b, s)
    case SetFacts(f) => WithFacts(b, f)
    case SetRules(rs) => WithRules(b, rs)
    case SetSchedules(ss) => WithSchedules(b, ss)
    case SetBindings(bs) => WithBindings(b, bs)
  }

  function Step(b: Builder, c: StagedBuilder.Call): (r: Result<Builder, StagedBuilder.BuildError>)
    ensures r.Success? <==> CallRank(c) == Rank(b.stage) + 1 && StagedBuilder.Supported(c)
    ensures Inv(b) && r.Success? ==> Inv(r.value)
  {
    if CallRank(c) != Rank(b.stage) + 1 then Failure(StagedBuilder.InvalidBuilderState)
    else if !StagedBuilder.Supported(c) then Failure(StagedBuilder.UnsupportedCommand)
    else Success(Apply(b, c))
  }

  function Run(calls: seq<StagedBuilder.Call>): (r: Result<Builder, StagedBuilder.BuildError>)
    ensures r.Success? ==> Inv(r.value)
    decreases |calls|
  {
    if |calls| == 0 then Success(New())
    else
      match Run(calls[..|calls| - 1])
      case Failure(e) => Failure(e)
      case Success(b) => Step(b, calls[|calls| - 1])
  }

  /** A chain followed by `program`. */
  function Build(calls: seq<StagedBuilder.Call>): (r: Result<EgglogProgram, StagedBuilder.BuildError>)
    ensures r.Success? ==> Indexed(r.value) && |r.value.rules| == 1 && |r.value.schedules| == 1
  {
    match Run(calls)
    case Failure(e) => Failure(e)
    case Success(b) =>
      if b.stage == BindingsState then Success(BuildProgram(b)) else Failure(StagedBuilder.InvalidBuilderState)
  }

  /** The i-th call of the chain is the i-th stage. */
  predicate InOrder(calls: seq<StagedBuilder.Call>) {
    forall i :: 0 <= i < |calls| ==> CallRank(calls[i]) == i + 1
  }

  /** The run succeeds exactly on supported prefixes of the permitted
      chain, and then as many stages lie behind the builder as were called. */
  lemma {:induction false} RunCharacterised(calls: seq<StagedBuilder.Call>)
    ensures Run(calls).Success? <==> InOrder(calls) && StagedBuilder.AllSupported(calls)
    ensures Run(calls).Success? ==> Rank(Run(calls).value.stage) == |calls|
    decreases |calls|
  {
    if |calls| > 0 {
      var pre, c := calls[..|calls| - 1], calls[|calls| - 1];
      assert calls == pre + [c];
      RunCharacterised(pre);
      StagedBuilder.AcceptedSnoc(pre, c);
      assert forall i :: 0 <= i < |pre| ==> calls[i] == pre[i];
    }
  }

  /** `program` is reached exactly by the five stages in order. */
  lemma BuildCharacterised(calls: seq<StagedBuilder.Call>)
    ensures Build(calls).Success? <==> |calls| == 5 && InOrder(calls) && StagedBuilder.AllSupported(calls)
  {
    RunCharacterised(calls);
    if Run(calls).Success? {
      var st := Run(calls).value.stage;
      assert st == BindingsState <==> Rank(st) == 5;
    }
  }

  /** Every chain the linear builder accepts, the three-axis builder accepts
      too, with `program` as terminal, and both build the same program. */
  lemma AgreesWithStagedBuilder(calls: seq<StagedBuilder.Call>)
    requires Build(calls).Success?
    ensures StagedBuilder.Build(calls, StagedBuilder.CallProgram) == Build(calls)
  {
    BuildCharacterised(calls);
    var s, f, rs, ss, bs := calls[0].sorts, calls[1].facts, calls[2].rules, calls[3].schedules, calls[4].bindings;
    assert calls == [StagedBuilder.SetSorts(s), StagedBuilder.SetFacts(f), StagedBuilder.SetRules(rs),
                     StagedBuilder.SetSchedules(ss), StagedBuilder.SetBindings(bs)];
    assert StagedBuilder.Supported(calls[0]) && StagedBuilder.Supported(calls[1]);
    LinearRunOfPipeline(s, f, rs, ss, bs);
    StagedRunOfPipeline(s, f, rs, ss, bs);
    Pipeline(s, f, rs, ss, bs);
    StagedBuilder.MergeTestOrder(s, f, rs, bs, ss);
  }

  lemma LinearRunOfPipeline(s: EgglogSorts, f: EgglogFacts, rs: Fragment, ss: Fragment, bs: set<Symbol>)
    requires Sorts.Valid(s) && AllLet(f.commands)
    ensures var calls := [StagedBuilder.SetSorts(s), StagedBuilder.SetFacts(f), StagedBuilder.SetRules(rs),
                          StagedBuilder.SetSchedules(ss), StagedBuilder.SetBindings(bs)];
      Build(calls) == Success(BuildProgram(WithBindings(WithSchedules(WithRules(WithFacts(WithSorts(New(), s), f), rs), ss), bs)))
  {
    var calls := [StagedBuilder.SetSorts(s), StagedBuilder.SetFacts(f), StagedBuilder.SetRules(rs),
                  StagedBuilder.SetSchedules(ss), StagedBuilder.SetBindings(bs)];
    assert calls[..4][..3][..2][..1][..0] == [];
    assert calls[..4][..3][..2][..1] == calls[..1];
    assert calls[..4][..3][..2] == calls[..2];
    assert calls[..4][..3] == calls[..3];
    var b1 := WithSorts(New(), s);
    assert Run(calls[..1]) == Success(b1);
    var b2 := WithFacts(b1, f);
    assert Run(calls[..2]) == Success(b2);
    var b3 := WithRules(b2, rs);
    assert Run(calls[..3]) == Success(b3);
    var b4 := WithSchedules(b3, ss);
    assert Run(calls[..4]) == Success(b4);
  }

  lemma StagedRunOfPipeline(s: EgglogSorts, f: EgglogFacts, rs: Fragment, ss: Fragment, bs: set<Symbol>)
    requires Sorts.Valid(s) && AllLet(f.commands)
    ensures var calls := [StagedBuilder.SetSorts(s), StagedBuilder.SetFacts(f), StagedBuilder.SetRules(rs),
                          StagedBuilder.SetSchedules(ss), StagedBuilder.SetBindings(bs)];
      StagedBuilder.Build(calls, StagedBuilder.CallProgram) == Success(StagedBuilder.WholeProgram(
        StagedBuilder.WithBindings(StagedBuilder.WithSchedules(StagedBuilder.WithRules(
          StagedBuilder.WithFacts(StagedBuilder.WithSorts(StagedBuilder.Initialize(), s), f), rs), ss), bs)))
  {
    var calls := [StagedBuilder.SetSorts(s), StagedBuilder.SetFacts(f), StagedBuilder.SetRules(rs),
                  StagedBuilder.SetSchedules(ss), StagedBuilder.SetBindings(bs)];
    assert calls[..4][..3][..2][..1][..0] == [];
    assert calls[..4][..3][..2][..1] == calls[..1];
    assert calls[..4][..3][..2] == calls[..2];
    assert calls[..4][..3] == calls[..3];
    var b1 := StagedBuilder.WithSorts(StagedBuilder.Initialize(), s);
    assert StagedBuilder.Run(calls[..1]) == Success(b1);
    var b2 := StagedBuilder.WithFacts(b1, f);
    assert StagedBuilder.Run(calls[..2]) == Success(b2);
    var b3 := StagedBuilder.WithRules(b2, rs);
    assert StagedBuilder.Run(calls[..3]) == Success(b3);
    var b4 := StagedBuilder.WithSchedules(b3, ss);
    assert StagedBuilder.Run(calls[..4]) == Success(b4);
  }
}
