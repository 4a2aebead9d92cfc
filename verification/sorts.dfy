/** `EgglogSorts` (src/egraph/sorts.rs) and the sort-symbol extraction
    `get_sort_symbol` (src/egraph/builder.rs). */
module Sorts {
  import opened Ast
  import opened Seqs

  /** The command kinds `EgglogSorts` admits and `get_sort_symbol` accepts. */
  predicate IsSortKind(c: Command) {
    c.Sort? || c.Datatype? || c.Relation? || c.Function? || c.Constructor?
  }

  predicate AllSortKind(cmds: seq<Command>) {
    forall i :: 0 <= i < |cmds| ==> IsSortKind(cmds[i])
  }

  function VariantNames(vs: seq<Variant>): seq<Symbol> {
    seq(|vs|, i requires 0 <= i < |vs| => vs[i].name)
  }

  /** `get_sort_symbol`: the declared name, followed for a datatype by its
      variant names. Any other command kind panics in the source, which is
      this function's precondition. */
  function SortSymbols(c: Command): (r: seq<Symbol>)
    requires IsSortKind(c)
    ensures |r| >= 1 && r[0] == c.name
    ensures c.Datatype? ==> |r| == 1 + |c.variants|
    ensures c.Datatype? ==> forall i :: 0 <= i < |c.variants| ==> r[i + 1] == c.variants[i].name
    ensures !c.Datatype? ==> |r| == 1
  {
    if c.Datatype? then [c.name] + VariantNames(c.variants) else [c.name]
  }

  /** The symbol index built by the `sorts` stage: every symbol of every
      declaration, variant names included. */
  function SymbolsOfSorts(cmds: seq<Command>): (r: set<Symbol>)
    requires AllSortKind(cmds)
    ensures forall i, x :: 0 <= i < |cmds| && x in SortSymbols(cmds[i]) ==> x in r
    ensures forall x :: x in r ==> exists i :: 0 <= i < |cmds| && x in SortSymbols(cmds[i])
    decreases |cmds|
  {
    if |cmds| == 0 then {}
    else (set x | x in SortSymbols(cmds[0])) + SymbolsOfSorts(cmds[1..])
  }

  lemma {:induction false} SymbolsOfSortsAppend(a: seq<Command>, b: seq<Command>)
    requires AllSortKind(a) && AllSortKind(b)
    ensures AllSortKind(a + b)
    ensures SymbolsOfSorts(a + b) == SymbolsOfSorts(a) + SymbolsOfSorts(b)
  {
    assert AllSortKind(a + b) by {
      forall i | 0 <= i < |a + b|
        ensures IsSortKind((a + b)[i])
      {
        if i < |a| { assert (a + b)[i] == a[i]; } else { assert (a + b)[i] == b[i - |a|]; }
      }
    }
    var l := SymbolsOfSorts(a + b);
    var rr := SymbolsOfSorts(a) + SymbolsOfSorts(b);
    forall x | x in l ensures x in rr {
      var i :| 0 <= i < |a + b| && x in SortSymbols((a + b)[i]);
      if i < |a| { assert (a + b)[i] == a[i]; } else { assert (a + b)[i] == b[i - |a|]; }
    }
    forall x | x in rr ensures x in l {
      if x in SymbolsOfSorts(a) {
        var i :| 0 <= i < |a| && x in SortSymbols(a[i]);
        assert (a + b)[i] == a[i];
      } else {
        var i :| 0 <= i < |b| && x in SortSymbols(b[i]);
        assert (a + b)[|a| + i] == b[i];
      }
    }
  }

  /** `EgglogSorts`: a command list only ever extended through `AddSorts`. */
  datatype EgglogSorts = EgglogSorts(commands: seq<Command>)

  /** What every `EgglogSorts` value satisfies: `Default` is empty and
      `AddSorts`, the only mutator, admits sort-kind commands only. */
  predicate Valid(s: EgglogSorts) {
    AllSortKind(s.commands)
  }

  function Default(): EgglogSorts {
    EgglogSorts([])
  }

  /** `add_sorts`: keeps the existing commands and appends the sort-kind
      commands of `sortList` in their input order, dropping the rest. */
  function AddSorts(s: EgglogSorts, sortList: seq<Command>): (r: EgglogSorts)
    ensures Valid(s) ==> Valid(r)
  {
    var r := EgglogSorts(s.commands + Filter(sortList, IsSortKind));
    FilterIsSubsequence(sortList, IsSortKind);
    r
  }

  /** What `add_sorts` keeps: the old commands as a prefix, then exactly the
      sort-kind commands of `sortList`, in their order; a list with none of them
      changes nothing. */
  lemma AddSortsSpec(s: EgglogSorts, sortList: seq<Command>)
    ensures |s.commands| <= |AddSorts(s, sortList).commands| && AddSorts(s, sortList).commands[..|s.commands|] == s.commands
    ensures forall c :: c in AddSorts(s, sortList).commands[|s.commands|..] ==> c in sortList && IsSortKind(c)
    ensures forall c :: c in sortList && IsSortKind(c) ==> c in AddSorts(s, sortList).commands[|s.commands|..]
    ensures IsSubsequence(AddSorts(s, sortList).commands[|s.commands|..], sortList)
    ensures forall c :: multiset(AddSorts(s, sortList).commands[|s.commands|..])[c] == if IsSortKind(c) then multiset(sortList)[c] else 0
    ensures (forall i :: 0 <= i < |sortList| ==> !IsSortKind(sortList[i])) ==> AddSorts(s, sortList) == s
  {
    var kept := Filter(sortList, IsSortKind);
    assert AddSorts(s, sortList).commands[|s.commands|..] == kept;
    FilterIsSubsequence(sortList, IsSortKind);
    FilterCount(sortList, IsSortKind);
    if forall i :: 0 <= i < |sortList| ==> !IsSortKind(sortList[i]) {
      FilterNone(sortList, IsSortKind);
    }
  }

  /** A list that is already all sort-kind is appended unchanged. */
  lemma AddSortsOfSortKinds(s: EgglogSorts, sortList: seq<Command>)
    requires AllSortKind(sortList)
    ensures AddSorts(s, sortList).commands == s.commands + sortList
  {
    FilterAll(sortList, IsSortKind);
  }

  /** Adding two batches one after the other is adding their concatenation. */
  lemma AddSortsTwice(s: EgglogSorts, xs: seq<Command>, ys: seq<Command>)
    ensures AddSorts(AddSorts(s, xs), ys) == AddSorts(s, xs + ys)
  {
    FilterAppend(xs, ys, IsSortKind);
    var a, b := Filter(xs, IsSortKind), Filter(ys, IsSortKind);
    calc {
      AddSorts(AddSorts(s, xs), ys).commands;
      (s.commands + a) + b;
      s.commands + (a + b);
      AddSorts(s, xs + ys).commands;
    }
  }
}
