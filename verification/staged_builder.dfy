/** The three-axis type-state `EgglogProgramBuilder` of src/builder.rs.
    The builder carries one state per axis (sorts, facts, rules); here the
    three states are runtime tags, and the states a stage requires become
    its precondition. A dynamic layer (`Step`, `Run`, `Build`) answers which
    call chains the Rust compiler accepts, and the lemmas at the end compare
    it with a declarative description of those chains. */
module StagedBuilder {
  import opened Wrappers
  import opened Ast
  import opened Sorts
  import opened Facts
  import opened Program
  import opened MergeLaws

  /** The six states the axes take. The sorts axis moves Initial ->
      DefinedSorts, the facts axis Initial -> FactsPresent -> BoundSymbols,
      the rules axis Initial -> LoadedRules -> AddedSchedules. */
  datatype State = Initial | DefinedSorts | FactsPresent | LoadedRules | BoundSymbols | AddedSchedules

  datatype Builder = Builder(
    sortsAxis: State,
    factsAxis: State,
    rulesAxis: State,
    sorts: Option<ProgramSorts>,
    facts: Option<ProgramFacts>,
    rules: Option<seq<Fragment>>,
    bindings: Option<set<Symbol>>,
    schedules: Option<seq<Fragment>>)

  /** What holds of every builder `Initialize` and the stages produce: each
      axis is in one of its own states, a set slot goes with a state past
      `Initial`, each fragment list holds one fragment, and each index is
      exactly the symbols of its section. */
  predicate Inv(b: Builder) {
    && (b.sortsAxis == Initial || b.sortsAxis == DefinedSorts)
    && (b.factsAxis == Initial || b.factsAxis == FactsPresent || b.factsAxis == BoundSymbols)
    && (b.rulesAxis == Initial || b.rulesAxis == LoadedRules || b.rulesAxis == AddedSchedules)
    && (b.sortsAxis == Initial ==> b.factsAxis == Initial && b.rulesAxis == Initial)
    && (b.sortsAxis == DefinedSorts <==> b.sorts.Some?)
    && (b.factsAxis == Initial ==> b.facts.None? && b.bindings.None?)
    && (b.factsAxis != Initial ==> b.facts.Some?)
    && (b.factsAxis == BoundSymbols ==> b.bindings.Some?)
    && (b.rulesAxis == Initial ==> b.rules.None? && b.schedules.None?)
    && (b.rulesAxis != Initial ==> b.rules.Some?)
    && (b.rulesAxis == AddedSchedules ==> b.schedules.Some?)
    && (b.rules.Some? ==> |b.rules.value| == 1)
    && (b.schedules.Some? ==> |b.schedules.value| == 1)
    && (b.sorts.Some? ==> Sorts.Valid(b.sorts.value.section) && b.sorts.value == SortsEntry(b.sorts.value.section))
    && (b.facts.Some? ==> AllLet(b.facts.value.section.commands) && b.facts.value == FactsEntry(b.facts.value.section))
  }

  /** `initialize`: every axis `Initial`, every slot empty. */
  function Initialize(): (r: Builder)
    ensures Inv(r)
    ensures r.sortsAxis == Initial && r.factsAxis == Initial && r.rulesAxis == Initial
  {
    Builder(Initial, Initial, Initial, None, None, None, None, None)
  }

  /** `sorts`: only from sorts-axis `Initial`. Stores the section with the
      set of every symbol of every declaration, variant names included. */
  function WithSorts(b: Builder, sorts: EgglogSorts): (r: Builder)
    requires b.sortsAxis == Initial
    requires Sorts.Valid(sorts)
    ensures Inv(b) ==> Inv(r)
    ensures r.sortsAxis == DefinedSorts && r.factsAxis == b.factsAxis && r.rulesAxis == b.rulesAxis
    ensures r.sorts.Some? && r.sorts.value.section == sorts
    ensures forall x :: x in r.sorts.value.symbols <==>
      exists i :: 0 <= i < |sorts.commands| && x in SortSymbols(sorts.commands[i])
  {
    Builder(DefinedSorts, b.factsAxis, b.rulesAxis, Some(SortsEntry(sorts)), None, None, None, None)
  }

  /** `facts`: needs `DefinedSorts`, leaves any facts-axis state behind and
      moves to `FactsPresent`, replacing the facts slot outright. Every
      fact must be a `let` (`get_fact_symbol` panics otherwise). */
  function WithFacts(b: Builder, facts: EgglogFacts): (r: Builder)
    requires b.sortsAxis == DefinedSorts
    requires AllLet(facts.commands)
    ensures Inv(b) ==> Inv(r)
    ensures r.factsAxis == FactsPresent
    ensures r.facts.Some? && r.facts.value.section == facts
    ensures forall x :: x in r.facts.value.symbols <==>
      exists i :: 0 <= i < |facts.commands| && FactSymbol(facts.commands[i]) == x
    ensures r.(factsAxis := b.factsAxis, facts := b.facts) == b
  {
    b.(factsAxis := FactsPresent, facts := Some(FactsEntry(facts)))
  }

  /** `rules`: needs `DefinedSorts`, moves the rules axis to `LoadedRules`
      from any state, and stores exactly one fragment. */
  function WithRules(b: Builder, rules: Fragment): (r: Builder)
    requires b.sortsAxis == DefinedSorts
    ensures Inv(b) ==> Inv(r)
    ensures r.rulesAxis == LoadedRules
    ensures r.rules.Some? && |r.rules.value| == 1 && r.rules.value[0] == rules
    ensures r.(rulesAxis := b.rulesAxis, rules := b.rules) == b
  {
    b.(rulesAxis := LoadedRules, rules := Some([rules]))
  }

  /** `bindings`: needs `DefinedSorts` and `FactsPresent`. */
  function WithBindings(b: Builder, bindings: set<Symbol>): (r: Builder)
    requires b.sortsAxis == DefinedSorts && b.factsAxis == FactsPresent
    ensures Inv(b) ==> Inv(r)
    ensures r.factsAxis == BoundSymbols && r.bindings == Some(bindings)
    ensures r.(factsAxis := b.factsAxis, bindings := b.bindings) == b
  {
    b.(factsAxis := BoundSymbols, bindings := Some(bindings))
  }

  /** `schedules`: needs `DefinedSorts` and `LoadedRules`; stores exactly
      one fragment. */
  function WithSchedules(b: Builder, schedules: Fragment): (r: Builder)
    requires b.sortsAxis == DefinedSorts && b.rulesAxis == LoadedRules
    ensures Inv(b) ==> Inv(r)
    ensures r.rulesAxis == AddedSchedules
    ensures r.schedules.Some? && |r.schedules.value| == 1 && r.schedules.value[0] == schedules
    ensures r.(rulesAxis := b.rulesAxis, schedules := b.schedules) == b
  {
    b.(rulesAxis := AddedSchedules, schedules := Some([schedules]))
  }

  /** The body the four terminals share: the stored sorts (the `expect`),
      every other slot as stored or, when unset, its empty default. */
  function Assemble(b: Builder): (r: EgglogProgram)
    requires b.sorts.Some?
    ensures Inv(b) ==> Indexed(r) && |r.rules| <= 1 && |r.schedules| <= 1
    ensures r.sorts == b.sorts.value
    ensures b.facts.None? ==> r.facts == Empty().facts
    ensures b.rules.None? ==> r.rules == []
    ensures b.schedules.None? ==> r.schedules == []
    ensures b.bindings.None? ==> r.bindings == {}
    ensures b.facts.Some? ==> r.facts == b.facts.value
    ensures b.rules.Some? ==> r.rules == b.rules.value
    ensures b.schedules.Some? ==> r.schedules == b.schedules.value
    ensures b.bindings.Some? ==> r.bindings == b.bindings.value
  {
    EgglogProgram(
      b.sorts.value,
      b.facts.GetOr(Empty().facts),
      b.rules.GetOr([]),
      b.schedules.GetOr([]),
      b.bindings.GetOr({}))
  }

  /** `definitions`: any builder past the sorts gate. */
  function Definitions(b: Builder): (r: EgglogProgram)
    requires b.sortsAxis == DefinedSorts && b.sorts.Some?
    ensures Inv(b) ==> Indexed(r)
  {
    Assemble(b)
  }

  /** `variables`: needs `BoundSymbols`. */
  function Variables(b: Builder): (r: EgglogProgram)
    requires b.sortsAxis == DefinedSorts && b.factsAxis == BoundSymbols && b.sorts.Some?
    ensures Inv(b) ==> Indexed(r) && r.bindings == b.bindings.value
  {
    Assemble(b)
  }

  /** `rewrite`: needs `AddedSchedules`. */
  function Rewrite(b: Builder): (r: EgglogProgram)
    requires b.sortsAxis == DefinedSorts && b.rulesAxis == AddedSchedules && b.sorts.Some?
    ensures Inv(b) ==> Indexed(r) && |r.rules| == 1 && |r.schedules| == 1
  {
    Assemble(b)
  }

  /** `program`: needs `BoundSymbols` and `AddedSchedules`. */
  function WholeProgram(b: Builder): (r: EgglogProgram)
    requires b.sortsAxis == DefinedSorts && b.factsAxis == BoundSymbols && b.rulesAxis == AddedSchedules
    requires b.sorts.Some?
    ensures Inv(b) ==> Indexed(r) && |r.rules| == 1 && |r.schedules| == 1 && r.bindings == b.bindings.value
  {
    Assemble(b)
  }

  // ---------------------------------------------------------------------
  // Which call chains the Rust compiler accepts

  datatype Call =
    | SetSorts(sorts: EgglogSorts)
    | SetFacts(facts: EgglogFacts)
    | SetRules(rules: Fragment)
    | SetBindings(bindings: set<Symbol>)
    | SetSchedules(schedules: Fragment)

  datatype Terminal = CallDefinitions | CallVariables | CallRewrite | CallProgram

  datatype BuildError =
    | InvalidBuilderState  // the chain does not type-check
    | UnsupportedCommand   // a symbol extraction would panic

  /** The states each stage's `#[require]` names. */
  predicate Permitted(b: Builder, c: Call) {
    match c
    case SetSorts(_) => b.sortsAxis == Initial
    case SetFacts(_) => b.sortsAxis == DefinedSorts
    case SetRules(_) => b.sortsAxis == DefinedSorts
    case SetBindings(_) => b.sortsAxis == DefinedSorts && b.factsAxis == FactsPresent
    case SetSchedules(_) => b.sortsAxis == DefinedSorts && b.rulesAxis == LoadedRules
  }

  /** Arguments whose symbols can be extracted without a panic. */
  predicate Supported(c: Call) {
    match c
    case SetSorts(s) => Sorts.Valid(s)
    case SetFacts(f) => AllLet(f.commands)
    case _ => true
  }

  function Apply(b: Builder, c: Call): (r: Builder)
    requires Permitted(b, c) && Supported(c)
    ensures Inv(b) ==> Inv(r)
  {
    match c
    case SetSorts(s) => WithSorts(b, s)
    case SetFacts(f) => WithFacts(b, f)
    case SetRules(rs) => WithRules(b, rs)
    case SetBindings(bs) => WithBindings(b, bs)
    case SetSchedules(ss) => WithSchedules(b, ss)
  }

  function Step(b: Builder, c: Call): (r: Result<Builder, BuildError>)
    ensures r.Success? <==> Permitted(b, c) && Supported(c)
    ensures Inv(b) && r.Success? ==> Inv(r.value)
  {
    if !Permitted(b, c) then Failure(InvalidBuilderState)
    else if !Supported(c) then Failure(UnsupportedCommand)
    else Success(Apply(b, c))
  }

  /** The builder a chain of stage calls starting at `initialize` yields. */
  function Run(calls: seq<Call>): (r: Result<Builder, BuildError>)
    ensures r.Success? ==> Inv(r.value)
    decreases |calls|
  {
    if |calls| == 0 then Success(Initialize())
    else
      match Run(calls[..|calls| - 1])
      case Failure(e) => Failure(e)
      case Success(b) => Step(b, calls[|calls| - 1])
  }

  predicate TerminalPermitted(b: Builder, t: Terminal) {
    && b.sortsAxis == DefinedSorts
    && (t.CallVariables? || t.CallProgram? ==> b.factsAxis == BoundSymbols)
    && (t.CallRewrite? || t.CallProgram? ==> b.rulesAxis == AddedSchedules)
  }

  function Finish(b: Builder, t: Terminal): (r: Result<EgglogProgram, BuildError>)
    ensures Inv(b) ==> (r.Success? <==> TerminalPermitted(b, t))
    ensures r.Success? ==> b.sorts.Some? && r.value == Assemble(b)
  {
    if !TerminalPermitted(b, t) || b.sorts.None? then Failure(InvalidBuilderState)
    else
      match t
      case CallDefinitions => Success(Definitions(b))
      case CallVariables => Success(Variables(b))
      case CallRewrite => Success(Rewrite(b))
      case CallProgram => Success(WholeProgram(b))
  }

  /** A chain of stage calls followed by a terminal. */
  function Build(calls: seq<Call>, t: Terminal): (r: Result<EgglogProgram, BuildError>)
    ensures r.Success? ==> Indexed(r.value) && |r.value.rules| <= 1 && |r.value.schedules| <= 1
  {
    match Run(calls)
    case Failure(e) => Failure(e)
    case Success(b) => Finish(b, t)
  }

  // ---------------------------------------------------------------------
  // A declarative description of the accepted chains

  predicate OnFactsAxis(c: Call) { c.SetFacts? || c.SetBindings? }
  predicate OnRulesAxis(c: Call) { c.SetRules? || c.SetSchedules? }
  predicate IsFactsCall(c: Call) { c.SetFacts? }
  predicate IsRulesCall(c: Call) { c.SetRules? }
  predicate IsBindingsCall(c: Call) { c.SetBindings? }
  predicate IsSchedulesCall(c: Call) { c.SetSchedules? }

  /** `k` is the position of the last call of `calls` satisfying `p`. */
  ghost predicate LastAt(calls: seq<Call>, k: int, p: Call -> bool) {
    0 <= k < |calls| && p(calls[k]) && forall j :: k < j < |calls| ==> !p(calls[j])
  }

  /** The facts-axis state after `calls`: decided by the last facts-axis
      call, `Initial` when there is none. */
  ghost function FactsAxisAfter(calls: seq<Call>): State {
    if exists k :: LastAt(calls, k, OnFactsAxis) && calls[k].SetBindings? then BoundSymbols
    else if exists k :: LastAt(calls, k, OnFactsAxis) then FactsPresent
    else Initial
  }

  /** The rules-axis state after `calls`, likewise. */
  ghost function RulesAxisAfter(calls: seq<Call>): State {
    if exists k :: LastAt(calls, k, OnRulesAxis) && calls[k].SetSchedules? then AddedSchedules
    else if exists k :: LastAt(calls, k, OnRulesAxis) then LoadedRules
    else Initial
  }

  /** A stage call may follow `prefix`: it is not a second `sorts`, a
      `bindings` comes while the last facts-axis call was `facts`, and a
      `schedules` while the last rules-axis call was `rules`. */
  ghost predicate AllowedAfter(prefix: seq<Call>, c: Call) {
    && !c.SetSorts?
    && (c.SetBindings? ==> FactsAxisAfter(prefix) == FactsPresent)
    && (c.SetSchedules? ==> RulesAxisAfter(prefix) == LoadedRules)
  }

  /** The chains that type-check: `sorts` first, then allowed calls. */
  ghost predicate Accepted(calls: seq<Call>) {
    && (|calls| > 0 ==> calls[0].SetSorts?)
    && forall i :: 0 < i < |calls| ==> AllowedAfter(calls[..i], calls[i])
  }

  predicate AllSupported(calls: seq<Call>) {
    forall i :: 0 <= i < |calls| ==> Supported(calls[i])
  }

  ghost predicate TerminalAllowed(calls: seq<Call>, t: Terminal) {
    && |calls| > 0
    && (t.CallVariables? || t.CallProgram? ==> FactsAxisAfter(calls) == BoundSymbols)
    && (t.CallRewrite? || t.CallProgram? ==> RulesAxisAfter(calls) == AddedSchedules)
  }

  lemma LastAtSnoc(calls: seq<Call>, c: Call, p: Call -> bool)
    ensures p(c) ==> LastAt(calls + [c], |calls|, p)
    ensures p(c) ==> forall k :: LastAt(calls + [c], k, p) ==> k == |calls|
    ensures !p(c) ==> forall k :: LastAt(calls + [c], k, p) <==> LastAt(calls, k, p)
  {
    var s := calls + [c];
    assert s[|calls|] == c;
    assert forall j :: 0 <= j < |calls| ==> s[j] == calls[j];
  }

  lemma FactsAxisSnoc(calls: seq<Call>, c: Call)
    ensures FactsAxisAfter(calls + [c]) ==
      if c.SetFacts? then FactsPresent
      else if c.SetBindings? then BoundSymbols
      else FactsAxisAfter(calls)
  {
    LastAtSnoc(calls, c, OnFactsAxis);
    var s := calls + [c];
    assert s[|calls|] == c;
    if !OnFactsAxis(c) {
      assert forall k :: LastAt(s, k, OnFactsAxis) ==> s[k] == calls[k];
    }
  }

  lemma RulesAxisSnoc(calls: seq<Call>, c: Call)
    ensures RulesAxisAfter(calls + [c]) ==
      if c.SetRules? then LoadedRules
      else if c.SetSchedules? then AddedSchedules
      else RulesAxisAfter(calls)
  {
    LastAtSnoc(calls, c, OnRulesAxis);
    var s := calls + [c];
    assert s[|calls|] == c;
    if !OnRulesAxis(c) {
      assert forall k :: LastAt(s, k, OnRulesAxis) ==> s[k] == calls[k];
    }
  }

  lemma AcceptedSnoc(calls: seq<Call>, c: Call)
    ensures Accepted(calls + [c]) <==>
      Accepted(calls) && (if |calls| == 0 then c.SetSorts? else AllowedAfter(calls, c))
    ensures AllSupported(calls + [c]) <==> AllSupported(calls) && Supported(c)
  {
    var s := calls + [c];
    assert s[|calls|] == c && s[..|calls|] == calls;
    assert forall i :: 0 <= i < |calls| ==> s[i] == calls[i] && s[..i] == calls[..i];
    if Accepted(calls) && (if |calls| == 0 then c.SetSorts? else AllowedAfter(calls, c)) {
      forall i | 0 < i < |s| ensures AllowedAfter(s[..i], s[i]) {
        if i < |calls| { assert AllowedAfter(calls[..i], calls[i]); }
      }
    }
  }

  /** One step from a builder whose axes are those `pre` leads to: it
      succeeds exactly when the call may follow `pre`, and then leaves the
      axes `pre + [c]` leads to. */
  lemma StepAgrees(pre: seq<Call>, b: Builder, c: Call)
    requires b.sortsAxis == (if |pre| == 0 then Initial else DefinedSorts)
    requires b.factsAxis == FactsAxisAfter(pre) && b.rulesAxis == RulesAxisAfter(pre)
    ensures Step(b, c).Success? <==> (if |pre| == 0 then c.SetSorts? else AllowedAfter(pre, c)) && Supported(c)
    ensures Step(b, c).Success? ==>
      && Step(b, c).value.sortsAxis == DefinedSorts
      && Step(b, c).value.factsAxis == FactsAxisAfter(pre + [c])
      && Step(b, c).value.rulesAxis == RulesAxisAfter(pre + [c])
  {
    FactsAxisSnoc(pre, c);
    RulesAxisSnoc(pre, c);
  }

  /** The run succeeds exactly on the accepted chains of supported calls,
      and then each axis is in the state the chain's last call on it
      decides. */
  lemma {:induction false} RunCharacterised(calls: seq<Call>)
    ensures Run(calls).Success? <==> Accepted(calls) && AllSupported(calls)
    ensures Run(calls).Success? ==>
      && Run(calls).value.sortsAxis == (if |calls| == 0 then Initial else DefinedSorts)
      && Run(calls).value.factsAxis == FactsAxisAfter(calls)
      && Run(calls).value.rulesAxis == RulesAxisAfter(calls)
    decreases |calls|
  {
    if |calls| > 0 {
      var pre, c := calls[..|calls| - 1], calls[|calls| - 1];
      assert calls == pre + [c];
      RunCharacterised(pre);
      AcceptedSnoc(pre, c);
      if Run(pre).Success? {
        StepAgrees(pre, Run(pre).value, c);
      }
    } else {
      assert FactsAxisAfter(calls) == Initial;
      assert RulesAxisAfter(calls) == Initial;
    }
  }

  /** A chain plus terminal builds exactly when the chain is accepted, its
      calls are supported and the terminal's states were reached. */
  lemma BuildCharacterised(calls: seq<Call>, t: Terminal)
    ensures Build(calls, t).Success? <==> Accepted(calls) && AllSupported(calls) && TerminalAllowed(calls, t)
  {
    RunCharacterised(calls);
  }

  /** The last step of a successful run. */
  lemma RunLast(calls: seq<Call>)
    requires |calls| > 0 && Run(calls).Success?
    ensures Run(calls[..|calls| - 1]).Success?
    ensures var b := Run(calls[..|calls| - 1]).value;
      Permitted(b, calls[|calls| - 1]) && Supported(calls[|calls| - 1])
      && Run(calls).value == Apply(b, calls[|calls| - 1])
  {
  }

  /** Each stage writes its own slot and axis; after `sorts` every later
      stage leaves the other slots alone. */
  lemma ApplyFrame(b: Builder, c: Call)
    requires Permitted(b, c) && Supported(c)
    ensures !c.SetSorts? ==> Apply(b, c).sorts == b.sorts && Apply(b, c).sortsAxis == b.sortsAxis
    ensures !c.SetSorts? && !c.SetFacts? ==> Apply(b, c).facts == b.facts
    ensures !c.SetSorts? && !c.SetBindings? ==> Apply(b, c).bindings == b.bindings
    ensures !c.SetSorts? && !c.SetRules? ==> Apply(b, c).rules == b.rules
    ensures !c.SetSorts? && !c.SetSchedules? ==> Apply(b, c).schedules == b.schedules
  {
  }

  /** A successful non-empty run starts with `sorts` and holds its section. */
  lemma {:induction false} RunKeepsFirstSorts(calls: seq<Call>)
    requires Run(calls).Success? && |calls| > 0
    ensures calls[0].SetSorts?
    ensures Run(calls).value.sorts.Some? && Run(calls).value.sorts.value.section == calls[0].sorts
    decreases |calls|
  {
    var pre, c := calls[..|calls| - 1], calls[|calls| - 1];
    RunLast(calls);
    var b := Run(pre).value;
    if |pre| > 0 {
      RunKeepsFirstSorts(pre);
      assert calls[0] == pre[0];
      assert b.sortsAxis == DefinedSorts;
      ApplyFrame(b, c);
    }
  }

  /** Each call replaces its slot outright: a successful run holds the
      facts of the last `facts` call, or nothing when there is none. */
  lemma {:induction false} RunKeepsLastFacts(calls: seq<Call>)
    requires Run(calls).Success?
    ensures forall k :: LastAt(calls, k, IsFactsCall) ==>
      Run(calls).value.facts.Some? && Run(calls).value.facts.value.section == calls[k].facts
    ensures (forall k :: 0 <= k < |calls| ==> !calls[k].SetFacts?) ==> Run(calls).value.facts.None?
    decreases |calls|
  {
    if |calls| > 0 {
      var pre, c := calls[..|calls| - 1], calls[|calls| - 1];
      assert calls == pre + [c];
      RunLast(calls);
      RunKeepsLastFacts(pre);
      LastAtSnoc(pre, c, IsFactsCall);
      assert forall k :: 0 <= k < |pre| ==> calls[k] == pre[k];
      ApplyFrame(Run(pre).value, c);
    }
  }

  /** The bindings of the last `bindings` call, or nothing. */
  lemma {:induction false} RunKeepsLastBindings(calls: seq<Call>)
    requires Run(calls).Success?
    ensures forall k :: LastAt(calls, k, IsBindingsCall) ==> Run(calls).value.bindings == Some(calls[k].bindings)
    ensures (forall k :: 0 <= k < |calls| ==> !calls[k].SetBindings?) ==> Run(calls).value.bindings.None?
    decreases |calls|
  {
    if |calls| > 0 {
      var pre, c := calls[..|calls| - 1], calls[|calls| - 1];
      assert calls == pre + [c];
      RunLast(calls);
      RunKeepsLastBindings(pre);
      LastAtSnoc(pre, c, IsBindingsCall);
      assert forall k :: 0 <= k < |pre| ==> calls[k] == pre[k];
      ApplyFrame(Run(pre).value, c);
    }
  }

  /** The same for the rules axis: the fragment of the last `rules` call. */
  lemma {:induction false} RunKeepsLastRules(calls: seq<Call>)
    requires Run(calls).Success?
    ensures forall k :: LastAt(calls, k, IsRulesCall) ==> Run(calls).value.rules == Some([calls[k].rules])
    ensures (forall k :: 0 <= k < |calls| ==> !calls[k].SetRules?) ==> Run(calls).value.rules.None?
    decreases |calls|
  {
    if |calls| > 0 {
      var pre, c := calls[..|calls| - 1], calls[|calls| - 1];
      assert calls == pre + [c];
      RunLast(calls);
      RunKeepsLastRules(pre);
      LastAtSnoc(pre, c, IsRulesCall);
      assert forall k :: 0 <= k < |pre| ==> calls[k] == pre[k];
      ApplyFrame(Run(pre).value, c);
    }
  }

  /** And the fragment of the last `schedules` call, or nothing. */
  lemma {:induction false} RunKeepsLastSchedules(calls: seq<Call>)
    requires Run(calls).Success?
    ensures forall k :: LastAt(calls, k, IsSchedulesCall) ==> Run(calls).value.schedules == Some([calls[k].schedules])
    ensures (forall k :: 0 <= k < |calls| ==> !calls[k].SetSchedules?) ==> Run(calls).value.schedules.None?
    decreases |calls|
  {
    if |calls| > 0 {
      var pre, c := calls[..|calls| - 1], calls[|calls| - 1];
      assert calls == pre + [c];
      RunLast(calls);
      RunKeepsLastSchedules(pre);
      LastAtSnoc(pre, c, IsSchedulesCall);
      assert forall k :: 0 <= k < |pre| ==> calls[k] == pre[k];
      ApplyFrame(Run(pre).value, c);
    }
  }

  /** What a built program holds, for every chain and terminal: the sorts
      of the first call, and in each other slot the argument of the last call
      that set it, or the empty default when no call did. */
  lemma BuildContents(calls: seq<Call>, t: Terminal)
    requires Build(calls, t).Success?
    ensures |calls| > 0 && calls[0].SetSorts? && Build(calls, t).value.SortCommands() == calls[0].sorts.commands
    ensures forall k :: LastAt(calls, k, IsFactsCall) ==> Build(calls, t).value.FactCommands() == calls[k].facts.commands
    ensures (forall k :: 0 <= k < |calls| ==> !calls[k].SetFacts?) ==> Build(calls, t).value.facts == Empty().facts
    ensures forall k :: LastAt(calls, k, IsRulesCall) ==> Build(calls, t).value.rules == [calls[k].rules]
    ensures (forall k :: 0 <= k < |calls| ==> !calls[k].SetRules?) ==> Build(calls, t).value.rules == []
    ensures forall k :: LastAt(calls, k, IsSchedulesCall) ==> Build(calls, t).value.schedules == [calls[k].schedules]
    ensures (forall k :: 0 <= k < |calls| ==> !calls[k].SetSchedules?) ==> Build(calls, t).value.schedules == []
    ensures forall k :: LastAt(calls, k, IsBindingsCall) ==> Build(calls, t).value.bindings == calls[k].bindings
    ensures (forall k :: 0 <= k < |calls| ==> !calls[k].SetBindings?) ==> Build(calls, t).value.bindings == {}
  {
    var b := Run(calls).value;
    assert Build(calls, t).value == Assemble(b);
    assert |calls| > 0;
    RunKeepsFirstSorts(calls);
    RunKeepsLastFacts(calls);
    RunKeepsLastRules(calls);
    RunKeepsLastSchedules(calls);
    RunKeepsLastBindings(calls);
  }

  /** The facts axis and the rules axis are independent: a facts-axis call
      and a rules-axis call permitted on the same builder commute. */
  lemma AxesCommute(b: Builder, cf: Call, cr: Call)
    requires OnFactsAxis(cf) && OnRulesAxis(cr)
    requires Permitted(b, cf) && Supported(cf) && Permitted(b, cr) && Supported(cr)
    ensures Permitted(Apply(b, cf), cr) && Permitted(Apply(b, cr), cf)
    ensures Apply(Apply(b, cf), cr) == Apply(Apply(b, cr), cf)
  {
  }

  /** The order of the method-order test (sorts, facts, rules, bindings,
      schedules, program): one fragment each and the given bindings. */
  lemma MethodOrderAll(s: EgglogSorts, f: EgglogFacts, rs: Fragment, bs: set<Symbol>, ss: Fragment)
    requires Sorts.Valid(s) && AllLet(f.commands)
    ensures WholeProgram(WithSchedules(WithBindings(WithRules(WithFacts(WithSorts(Initialize(), s), f), rs), bs), ss))
      == EgglogProgram(SortsEntry(s), FactsEntry(f), [rs], [ss], bs)
  {
  }

  /** The order of the merge tests (sorts, facts, rules, schedules,
      bindings, program) builds the same program. */
  lemma MergeTestOrder(s: EgglogSorts, f: EgglogFacts, rs: Fragment, bs: set<Symbol>, ss: Fragment)
    requires Sorts.Valid(s) && AllLet(f.commands)
    ensures WholeProgram(WithBindings(WithSchedules(WithRules(WithFacts(WithSorts(Initialize(), s), f), rs), ss), bs))
      == EgglogProgram(SortsEntry(s), FactsEntry(f), [rs], [ss], bs)
  {
  }

  /** A sorts-only build through `definitions` succeeds and yields the sorts
      with every other part empty. */
  lemma SortsOnlyDefinitions(s: EgglogSorts)
    requires Sorts.Valid(s)
    ensures Build([SetSorts(s)], CallDefinitions) == Success(Empty().(sorts := SortsEntry(s)))
  {
    assert [SetSorts(s)][..0] == [];
    assert Run([SetSorts(s)]) == Success(WithSorts(Initialize(), s));
    ProgramExt(Build([SetSorts(s)], CallDefinitions).value, Empty().(sorts := SortsEntry(s)));
  }

  /** `facts` before `sorts` does not type-check, whatever follows. */
  lemma {:induction false} FactsFirstRejected(f: EgglogFacts, rest: seq<Call>)
    ensures Run([SetFacts(f)] + rest) == Failure(InvalidBuilderState)
    decreases |rest|
  {
    var calls := [SetFacts(f)] + rest;
    if |rest| == 0 {
      assert calls[..0] == [];
    } else {
      assert calls[..|calls| - 1] == [SetFacts(f)] + rest[..|rest| - 1];
      FactsFirstRejected(f, rest[..|rest| - 1]);
    }
  }
}
