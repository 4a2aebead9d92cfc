# egglog-program: program assembly and merging, in Dafny

egglog-program puts an egglog program together from typed sections:
- **sorts**: sort, datatype, relation, function and constructor declarations;
- **facts**: `let` actions;
- **rules** and **schedules**: opaque command fragments;
- **bindings**: a set of symbols.

It then merges programs and flattens a program into the single command list
the e-graph engine runs. This project models that assembly layer:

- `Ast`: the slice of the egglog command tree that the layer looks at. This
  is each command's tag and the names it declares. Everything else is
  opaque text.
- `Sorts` and `Facts`:
  - the section types `EgglogSorts` and `EgglogFacts`, with `add_sorts` and
    `add_facts`;
  - the symbol extraction `get_sort_symbol` and `get_fact_symbol`. A panic
    in the source is the precondition here.
- `Program`:
  - `EgglogProgram`, with a symbol index beside each section;
  - the merge `combine` (`Semigroup`), its identity `empty` (`Monoid`), and
    the consuming `add` (`+`);
  - `From<EgglogProgram> for EgglogCommandList`, the flattening.
  `add` is modelled as a method with element-by-element filter loops, and
  is proved equal to `combine`.
- `MergeLaws`:
  - the monoid laws;
  - the first-symbol deduplication, and what it does not deduplicate;
  - commutation of disjoint merges;
  - how flattening meets merging.
- `StagedBuilder`: the three-axis type-state builder of `src/builder.rs`.
  - The type-state parameters are runtime tags, and each `#[require]`
    becomes a precondition.
  - `Run`/`Build` are a dynamic layer. They return `InvalidBuilderState`
    for a chain the compiler would reject, and `UnsupportedCommand` for a
    chain whose symbol extraction would panic.
  - Declarative predicates describe the accepted chains, and the lemmas
    prove the dynamic layer agrees with them in both directions.
- `LinearBuilder`: the linear marker-type builder of
  `src/egraph/builder.rs`. It is proved to accept exactly the five stages in
  order. Every chain it builds to a program, the three-axis builder builds
  too, with `program` as terminal, and to the same program.
- `Scenarios`: the repository's unit tests, restated as lemmas. The merge
  tests load `.egg` fixtures; here they are stated over any programs of the
  fixtures' shape. The module also holds concrete inputs for behaviours of
  the merge that are easy to get wrong.

The two `EgglogProgram` definitions appear in `src/builder.rs` and
`src/egraph/builder.rs`. Their `combine`, `empty`, `add` and `From` are the
same code, so they share one Dafny model. Each row below cites one of the
two copies.

Behaviours of the code that are easy to get wrong:
- The merged sort and fact indices are the full unions of the operands'
  indices. This includes the symbols of right declarations the filter
  dropped (`Scenarios.CombinedIndexNotExact`). So a merged index can be a
  strict superset of the declared symbols.
- In the three-axis builder, `facts` and `rules` leave their own axis
  generic. A `facts` call after `bindings` moves the facts axis back to
  `FactsPresent`, and it keeps the earlier bindings
  (`Scenarios.FactsAfterBindings`).
- Deduplication compares only the first symbol of each right declaration,
  against a left index that also holds variant names. Duplicates inside
  the right operand are kept (`Scenarios.RightDuplicatesKept`,
  `Scenarios.VariantShadowsRightSort`, `Scenarios.CollidingVariantKept`).
- `combine` is associative for all operands, not only for ones with
  disjoint symbols (`MergeLaws.CombineAssociative`).

## Model

| member | source | states |
|---|---|---|
| Sorts.SortSymbols | src/egraph/builder.rs:61-82 | The first symbol is the declared name. A datatype adds exactly its variant names, in order. Every other sort kind yields exactly one symbol. |
| Sorts.SymbolsOfSorts | src/builder.rs:53-54 | A symbol is in the sort index exactly when some declaration's symbol list contains it. |
| Sorts.SymbolsOfSortsAppend | src/builder.rs:53-54 | The index of two concatenated sections is the union of their indices. |
| Sorts.AddSorts | src/egraph/sorts.rs:12-29 | Adding to a section that holds only sort-kind commands leaves it holding only sort-kind commands. |
| Sorts.AddSortsSpec | src/egraph/sorts.rs:12-29 | The old commands stay as a prefix. What follows them is exactly the sort-kind commands of the list: both directions of membership, each sort-kind command as many times as it occurs in the list, as a subsequence of the list. A list with no sort-kind command changes nothing. |
| Sorts.AddSortsOfSortKinds | src/egraph/sorts.rs:12-29 | A list made only of sort-kind commands is appended whole. |
| Sorts.AddSortsTwice | src/egraph/sorts.rs:12-29 | Adding two lists one after the other equals adding their concatenation once. |
| Facts.FactSymbol | src/facts.rs:8-19 | Defined only on `let` actions, and the result is the bound name: the command is `let r = value`. |
| Facts.FactSymbols | src/builder.rs:67-68 | A symbol is in the fact index exactly when some fact binds it. |
| Facts.FactSymbolsAppend | src/builder.rs:67-68 | The fact index of two concatenated sections is the union of their indices. |
| Facts.AddFacts | src/facts.rs:25-36 | Adding to a section that holds only actions leaves it holding only actions. |
| Facts.AddFactsSpec | src/facts.rs:25-36 | The old commands stay as a prefix. What follows is exactly the action commands of the list: both directions of membership, each action as many times as it occurs in the list, as a subsequence. A list with no action changes nothing. |
| Facts.AddFactsOfActions | src/facts.rs:25-36 | A list made only of actions is appended whole. |
| Facts.AddFactsTwice | src/facts.rs:25-36 | Adding two lists one after the other equals adding their concatenation once. |
| Facts.AddFactsAdmitsNonLet | src/facts.rs:25-36 | A non-`let` action is admitted, so a facts section need not be symbol-extractable. |
| Program.NewSortsAreSortKind | src/builder.rs:161-169 | The right sorts that survive the filter are all sort-kind. |
| Program.NewFactsAreLets | src/builder.rs:173-181 | The right facts that survive the filter are all `let` actions. |
| Program.Combine | src/builder.rs:159-199 | The left sections are prefixes of the merged ones. The indices and bindings are unions. The fragment lists are the left list followed by the right list. |
| Program.KeepNewSorts | src/builder.rs:210-217 | The loop returns exactly the right sorts whose first symbol is not in the left index, in their order. |
| Program.KeepNewFacts | src/builder.rs:219-226 | The loop returns exactly the right facts whose bound name is not in the left fact index, in their order. |
| Program.Add | src/builder.rs:207-234 | The in-place `+` yields the same program as `combine`. |
| Program.ToCommandList | src/builder.rs:236-253 | The length is the sum of the section and fragment lengths. The sorts come first, then the facts, then every rule fragment and every schedule fragment. |
| Program.Empty | src/builder.rs:201-205 | The default program can stand as a merge operand without a panic, flattens to no commands, and its indices are exactly the symbols of its (empty) sections. `MergeLaws.CombineLeftIdentity` and `MergeLaws.CombineRightIdentity` state that it is the unit of `Combine`. |
| MergeLaws.CombineSections | src/builder.rs:159-199 | Each merged section is exactly the left section followed by the filtered right section. Each index is the union. |
| MergeLaws.CombinePreservesMergeable | src/builder.rs:159-199 | A merge of two mergeable programs is mergeable again, so merges chain without a panic. |
| MergeLaws.CombineAppendsUnseen | src/builder.rs:161-181 | An appended declaration comes from the right and its first symbol is not in the left index. Every such right declaration is appended, and the appended part is a subsequence of the right section. |
| MergeLaws.CombineRightIdentity | src/builder.rs:201-205 | Merging with `empty` on the right gives back the program. |
| MergeLaws.CombineLeftIdentity | src/builder.rs:201-205 | Merging a mergeable program into `empty` gives back the program. |
| MergeLaws.NewSortsTwice | src/builder.rs:161-169 | Filtering by one index after filtering by another equals filtering once by their union. |
| MergeLaws.AssociativeSorts | src/builder.rs:159-171 | The sorts section of `(a+b)+c` equals that of `a+(b+c)`. |
| MergeLaws.AssociativeFacts | src/builder.rs:173-183 | The facts section of `(a+b)+c` equals that of `a+(b+c)`. |
| MergeLaws.CombineAssociative | src/egraph/builder.rs:191-231 | `combine` is associative for all programs whose right operands are mergeable. |
| MergeLaws.CombineDisjoint | src/builder.rs:159-199 | When no right symbol is indexed on the left, the sections are plain concatenations. |
| MergeLaws.CombineCommutesWhenDisjoint | src/builder.rs:159-199 | Over programs disjoint in both directions, the two merge orders hold the same declarations, fragments, indices and bindings, up to order. |
| MergeLaws.CombineDropsIndexedSort | src/builder.rs:161-171 | A right sort whose first symbol is indexed on the left is not appended, so the merged section is shorter than the two together. If the right index is exact, the dropped sort's name is still indexed. |
| MergeLaws.CombineDropsIndexedFact | src/builder.rs:173-183 | A right fact whose name is indexed on the left is not appended, so the merged facts section is shorter than the two together. |
| MergeLaws.CombinePreservesCovered | src/builder.rs:159-199 | If every declared symbol of both operands is indexed, the same holds of the merge. |
| MergeLaws.CombineNoDuplicatesAcrossSeam | src/builder.rs:161-181 | On a covered left operand, no left declaration and appended right declaration share a first symbol, for sorts and for facts. |
| MergeLaws.CombineExtendsSorts | src/builder.rs:161-171 | An update that repeats the left sorts and then declares sorts under fresh names merges to the update's sorts section and the left facts. |
| MergeLaws.CombineWithOwnSorts | src/builder.rs:207-234 | Merging an update that carries a copy of the left sorts and no facts keeps the sorts and facts. The flattened list grows only by the update's fragments. |
| MergeLaws.ToCommandListOfCombine | src/builder.rs:236-253 | Flattening a merge gives: left sorts, appended sorts, left facts, appended facts, left rules, right rules, left schedules, right schedules. |
| MergeLaws.ToCommandListIgnoresBindings | src/egraph/builder.rs:268-285 | The flattened list does not depend on the bindings. |
| StagedBuilder.Initialize | src/builder.rs:39-48 | Every axis is `Initial` and the invariant holds. |
| StagedBuilder.WithSorts | src/builder.rs:50-62 | Only from sorts-axis `Initial`. Moves to `DefinedSorts`, stores the section, and indexes exactly the symbols of its declarations. Keeps the invariant. |
| StagedBuilder.WithFacts | src/builder.rs:64-76 | Needs `DefinedSorts`. The facts axis becomes `FactsPresent` from any state. Stores the facts with an index of exactly their bound names, and changes nothing else. |
| StagedBuilder.WithRules | src/builder.rs:78-88 | Needs `DefinedSorts`. The rules axis becomes `LoadedRules`, the slot holds the one fragment, and nothing else changes. |
| StagedBuilder.WithBindings | src/builder.rs:90-100 | Needs `FactsPresent`. Moves to `BoundSymbols`, stores the bindings, and changes nothing else. |
| StagedBuilder.WithSchedules | src/builder.rs:102-112 | Needs `LoadedRules`. Moves to `AddedSchedules`, the slot holds the one fragment, and nothing else changes. |
| StagedBuilder.Assemble | src/builder.rs:114-156 | Every terminal returns the stored sorts. Each other slot is returned as stored when set, and as its empty default when unset. The program's indices are exact, with at most one fragment of each kind. |
| StagedBuilder.Definitions | src/builder.rs:114-123 | Past the sorts gate, yields an exactly indexed program. |
| StagedBuilder.Variables | src/builder.rs:125-134 | Needs `BoundSymbols`. The program carries the stored bindings. |
| StagedBuilder.Rewrite | src/builder.rs:136-145 | Needs `AddedSchedules`. The program has one rule fragment and one schedule fragment. |
| StagedBuilder.WholeProgram | src/builder.rs:147-156 | Needs both end states. The program has one fragment of each kind and the stored bindings. |
| StagedBuilder.Apply | src/builder.rs:50-112 | A permitted, supported stage keeps the builder invariant. |
| StagedBuilder.Step | src/builder.rs:50-112 | A step succeeds exactly when the stage's required states hold and its symbols can be extracted. |
| StagedBuilder.Run | src/builder.rs:39-112 | Every successful chain from `initialize` ends in a builder that satisfies the invariant. |
| StagedBuilder.Finish | src/builder.rs:114-156 | A terminal succeeds exactly when its required states hold, and then it yields the assembled program. |
| StagedBuilder.Build | src/builder.rs:39-156 | Every program built by a chain and a terminal is exactly indexed, with at most one fragment of each kind. |
| StagedBuilder.RunCharacterised | src/builder.rs:39-112 | A chain runs exactly when it starts with `sorts` and never repeats it, every `bindings` follows a `facts` as its axis's latest call, every `schedules` likewise follows a `rules`, and every argument is supported. The axis states are then those of the last call on each axis. |
| StagedBuilder.StepAgrees | src/builder.rs:50-112 | From a builder whose axes are those a chain leads to, a step succeeds exactly when the call may follow that chain and is supported. It then leaves the axes the extended chain leads to. |
| StagedBuilder.BuildCharacterised | src/builder.rs:114-156 | A chain plus terminal builds exactly when the chain runs and the terminal's states were reached. |
| StagedBuilder.ApplyFrame | src/builder.rs:64-112 | Each stage after `sorts` writes only its own slot and axis. |
| StagedBuilder.RunKeepsFirstSorts | src/builder.rs:50-62 | A successful chain starts with `sorts` and holds that section at the end. |
| StagedBuilder.RunKeepsLastFacts | src/builder.rs:64-76 | The facts slot holds the facts of the last `facts` call, or is empty when there is none. |
| StagedBuilder.RunKeepsLastBindings | src/builder.rs:90-100 | The bindings slot holds the last `bindings` call's set, or is empty. |
| StagedBuilder.RunKeepsLastRules | src/builder.rs:78-88 | The rules slot holds exactly the fragment of the last `rules` call, or is empty. |
| StagedBuilder.RunKeepsLastSchedules | src/builder.rs:102-112 | The schedules slot holds exactly the fragment of the last `schedules` call, or is empty. |
| StagedBuilder.BuildContents | src/builder.rs:39-156 | For every chain and terminal that build, the program holds the sorts of the first call. Each other slot holds the argument of the last call that set it, or its empty default when no call did. |
| StagedBuilder.AxesCommute | src/builder.rs:64-112 | A facts-axis call and a rules-axis call that are both permitted stay permitted in either order, and they commute. |
| StagedBuilder.MethodOrderAll | src/builder.rs:274-289 | The chain sorts, facts, rules, bindings, schedules, program builds the exactly indexed program of its arguments. |
| StagedBuilder.MergeTestOrder | src/builder.rs:311-317 | The chain that ends rules, schedules, bindings builds the same program. |
| StagedBuilder.SortsOnlyDefinitions | src/builder.rs:291-297 | `sorts` followed by `definitions` succeeds and gives the sorts with every other part empty. |
| StagedBuilder.FactsFirstRejected | src/builder.rs:64-76 | Any chain that starts with `facts` fails with `InvalidBuilderState`. |
| LinearBuilder.New | src/egraph/builder.rs:97-107 | The builder starts in `InitState` with nothing set. |
| LinearBuilder.WithSorts | src/egraph/builder.rs:109-120 | Moves to `SortsState` with the section and its exact index. Carries facts and rules over, and clears schedules and bindings. |
| LinearBuilder.WithFacts | src/egraph/builder.rs:124-135 | Moves to `FactsState` with the facts and their exact index. Keeps sorts and rules, and clears schedules and bindings. |
| LinearBuilder.WithRules | src/egraph/builder.rs:139-148 | Moves to `RulesState` with the one fragment. Clears schedules and bindings. |
| LinearBuilder.WithSchedules | src/egraph/builder.rs:152-161 | Moves to `SchedulesState` with the one fragment. Clears bindings. |
| LinearBuilder.WithBindings | src/egraph/builder.rs:165-174 | Moves to `BindingsState` with the bindings, and changes nothing else. |
| LinearBuilder.BuildProgram | src/egraph/builder.rs:177-188 | Yields an exactly indexed program holding every stored slot as stored: the sorts, the facts, the bindings, and the one rule fragment and one schedule fragment. |
| LinearBuilder.ProgramTotal | src/egraph/builder.rs:177-188 | In `BindingsState` every slot is set, so no `expect` in `program` fails. |
| LinearBuilder.Pipeline | src/egraph/builder.rs:306-321 | The five-stage chain builds the program of exactly indexed sections, one fragment each, and the given bindings. |
| LinearBuilder.Apply | src/egraph/builder.rs:97-174 | The next stage in order keeps the invariant and advances the stage count by one. |
| LinearBuilder.Step | src/egraph/builder.rs:97-174 | A step succeeds exactly when the call is the next stage and its symbols can be extracted. |
| LinearBuilder.Run | src/egraph/builder.rs:97-174 | Every successful chain ends in a builder satisfying the invariant. |
| LinearBuilder.Build | src/egraph/builder.rs:177-188 | A built program is exactly indexed, with one fragment of each kind. |
| LinearBuilder.RunCharacterised | src/egraph/builder.rs:97-174 | A chain runs exactly when its calls are the stages in order with supported arguments. Then as many stages lie behind the builder as calls were made. |
| LinearBuilder.BuildCharacterised | src/egraph/builder.rs:177-188 | `program` is reached exactly by the five stages in order. |
| LinearBuilder.AgreesWithStagedBuilder | src/egraph/builder.rs:97-188 | Every chain the linear builder builds, the three-axis builder builds too, with `program` as terminal, and to the same program. |
| LinearBuilder.LinearRunOfPipeline | src/egraph/builder.rs:97-188 | The dynamic layer runs the five-stage chain through the stage functions. |
| LinearBuilder.StagedRunOfPipeline | src/builder.rs:39-156 | The three-axis dynamic layer runs the same chain through its stage functions. |
| Scenarios.SortsFromCommands | src/egraph/sorts.rs:79-108 | A sort, a datatype, a relation and a function added to the empty section give four commands. |
| Scenarios.FactsFromCommands | src/facts.rs:88-101 | One `let` added to the empty facts gives one command, which binds `var1`. |
| Scenarios.Built | src/builder.rs:147-156 | The program built from one argument per stage is exactly indexed and holds the given sections. |
| Scenarios.BuiltByStagedBuilder | src/builder.rs:311-317 | The three-axis chain of the merge tests builds that program. |
| Scenarios.CommandsOfTwoFragments | src/builder.rs:236-253 | A program with two rule and two schedule fragments flattens to sorts, facts, both rule fragments, then both schedule fragments. |
| Scenarios.FixtureShapedMerge | src/builder.rs:299-341 | The fixture shapes give 11 sorts, 1 fact, 2 rule and 2 schedule fragments, 3 bindings and 18 commands, in that layout. |
| Scenarios.DuplicateSortsMerge | src/builder.rs:515-552 | An update with a copy of the sorts and empty fragments gives 8 sorts, 1 fact, 2 rule and 2 schedule fragments, and 12 commands. |
| Scenarios.FooBarKept | src/builder.rs:161-169 | Filtering `Foo`, `Bar` against an index holding `Foo` keeps only `Bar`. |
| Scenarios.FooBarMerge | src/builder.rs:161-171 | Merging `Foo`+`Bar` into `Foo` keeps the left `Foo`, appends `Bar`, and indexes both. |
| Scenarios.CombinedIndexNotExact | src/builder.rs:161-171 | When a right datatype is dropped, its variant name still enters the index, so the merge is no longer exactly indexed. |
| Scenarios.RightDuplicatesKept | src/builder.rs:161-169 | Two right sorts with one name both survive a merge into `empty`. |
| Scenarios.VariantShadowsRightSort | src/builder.rs:161-169 | A left variant name drops a right sort of that name. |
| Scenarios.CollidingVariantKept | src/builder.rs:161-169 | Two datatypes with different names and a shared variant are both kept. |
| Scenarios.FactsAfterBindings | src/builder.rs:64-76 | `facts` after `bindings` succeeds and moves the facts axis back to `FactsPresent`: `variables` is then refused, and `definitions` still carries the earlier bindings. |
| Scenarios.NonLetFactRefused | src/builder.rs:64-76 | A facts section holding a non-`let` action is built by `add_facts` but refused by the `facts` stage with `UnsupportedCommand`. |

## Left out

- `add_sort_str`, `add_facts_str`, `add_rule_str` and `add_schedule_str`: they call egglog's parser, which is not part of this model. Sections are built from command values instead.
- Scenarios.FixtureShapedMerge: states the section, fragment, binding and command counts of the merge tests, and the layout of the flattened list as sections. It does not state the command tag at each position, which the tests assert (src/builder.rs:342-401), because the fixtures' commands are not modelled. It also does not state the index size 81 that the `+` test asserts (src/builder.rs:443). That size depends on the fixture's symbols. The `+` test is covered because `Program.Add` equals `Program.Combine`.
- Scenarios.DuplicateSortsMerge: states that the index is unchanged, but not its size 76 (src/builder.rs:546), for the same reason.
- The `.egg` fixture files: they are not part of this model. The merge tests are stated over programs of the fixtures' shape.
- `Display` for `EgglogProgram` and its test: it prints through egglog's own command formatting.
- The macros of src/egraph/macros.rs, the module wiring and macro test of src/egraph.rs, and the module declarations and re-exports of src/lib.rs: they are outside the assembly layer. The type aliases of src/program.rs and src/egraph.rs are modelled directly: `EgglogProgramSorts` and `EgglogProgramFacts` are `ProgramSorts` and `ProgramFacts`, `EgglogRuleList` and `EgglogScheduleList` are `seq<Fragment>`, `EgglogCommandList` is `seq<Command>`, and `EgglogSymbols` is `set<Symbol>`.
- `Deref`, `AsRef`, `IntoIterator`, and `From` (sorts, src/egraph/sorts.rs:58) or `Into` (facts, src/facts.rs:65-70) on the section types: each exposes the command list, which is the `commands` field here.
- Hash-set iteration order: indices and bindings are Dafny sets, which have no order, and nothing observable in the layer depends on it.
- Command bodies (expressions, schemas, spans, rule and schedule internals): kept as opaque text. Only the tags and declared names matter to this layer.
- Panics: the panic of `get_sort_symbol` on a non-declaration and of `get_fact_symbol` on a non-`let` are preconditions of `SortSymbols`, `FactSymbol` and `Combine`. In the dynamic builder layers they are the `UnsupportedCommand` error.
- Type-state checking: the compile-time rejection of a wrong call order is the `InvalidBuilderState` error of the dynamic layers. The state parameters are runtime tags.
- The `egglog_program_default` tests, which only construct the default program: `Program.Empty` is the default program, and its laws are `MergeLaws.CombineLeftIdentity` and `MergeLaws.CombineRightIdentity`.
