/** Laws of the merge algebra of `EgglogProgram`: the monoid laws `combine`
    is declared to satisfy, the first-symbol deduplication it performs and
    what it does not deduplicate, and how flattening interacts with it. */
module MergeLaws {
  import opened Ast
  import opened Seqs
  import opened Sorts
  import opened Facts
  import opened Program

  /** The exact sections of a merge: the left sections followed by the
      filtered right sections. */
  lemma CombineSections(a: EgglogProgram, b: EgglogProgram)
    requires Mergeable(b)
    ensures Combine(a, b).SortCommands() == a.SortCommands() + NewSorts(a.sorts.symbols, b.SortCommands())
    ensures Combine(a, b).FactCommands() == a.FactCommands() + NewFacts(a.facts.symbols, b.FactCommands())
    ensures Combine(a, b).sorts.symbols == a.sorts.symbols + b.sorts.symbols
    ensures Combine(a, b).facts.symbols == a.facts.symbols + b.facts.symbols
  {
    NewSortsAreSortKind(a.sorts.symbols, b.SortCommands());
    NewFactsAreLets(a.facts.symbols, b.FactCommands());
    AddSortsOfSortKinds(a.sorts.section, NewSorts(a.sorts.symbols, b.SortCommands()));
    AddFactsOfActions(a.facts.section, NewFacts(a.facts.symbols, b.FactCommands()));
  }

  /** A merge of two mergeable programs is mergeable again. */
  lemma CombinePreservesMergeable(a: EgglogProgram, b: EgglogProgram)
    requires Mergeable(a) && Mergeable(b)
    ensures Mergeable(Combine(a, b))
  {
    var r := Combine(a, b);
    CombineSections(a, b);
    var ks := NewSorts(a.sorts.symbols, b.SortCommands());
    var kf := NewFacts(a.facts.symbols, b.FactCommands());
    NewSortsAreSortKind(a.sorts.symbols, b.SortCommands());
    NewFactsAreLets(a.facts.symbols, b.FactCommands());
    forall i | 0 <= i < |r.SortCommands()| ensures IsSortKind(r.SortCommands()[i]) {
      if i >= |a.SortCommands()| { assert r.SortCommands()[i] == ks[i - |a.SortCommands()|]; }
    }
    forall i | 0 <= i < |r.FactCommands()| ensures IsLet(r.FactCommands()[i]) {
      if i >= |a.FactCommands()| { assert r.FactCommands()[i] == kf[i - |a.FactCommands()|]; }
    }
  }

  /** What the merge appends: exactly the right declarations whose (first)
      symbol the left index lacks, as a subsequence of the right section. */
  lemma CombineAppendsUnseen(a: EgglogProgram, b: EgglogProgram)
    requires Mergeable(b)
    ensures var r := Combine(a, b);
      forall c :: c in r.SortCommands()[|a.SortCommands()|..] ==>
        c in b.SortCommands() && SortSymbols(c)[0] !in a.sorts.symbols
    ensures var r := Combine(a, b);
      forall c :: c in b.SortCommands() && SortSymbols(c)[0] !in a.sorts.symbols ==>
        c in r.SortCommands()[|a.SortCommands()|..]
    ensures IsSubsequence(Combine(a, b).SortCommands()[|a.SortCommands()|..], b.SortCommands())
    ensures var r := Combine(a, b);
      forall c :: c in r.FactCommands()[|a.FactCommands()|..] ==>
        c in b.FactCommands() && FactSymbol(c) !in a.facts.symbols
    ensures var r := Combine(a, b);
      forall c :: c in b.FactCommands() && FactSymbol(c) !in a.facts.symbols ==>
        c in r.FactCommands()[|a.FactCommands()|..]
    ensures IsSubsequence(Combine(a, b).FactCommands()[|a.FactCommands()|..], b.FactCommands())
  {
    var r := Combine(a, b);
    CombineSections(a, b);
    assert r.SortCommands()[|a.SortCommands()|..] == NewSorts(a.sorts.symbols, b.SortCommands());
    assert r.FactCommands()[|a.FactCommands()|..] == NewFacts(a.facts.symbols, b.FactCommands());
    FilterIsSubsequence(b.SortCommands(), c => SortIsNew(a.sorts.symbols, c));
    FilterIsSubsequence(b.FactCommands(), c => FactIsNew(a.facts.symbols, c));
  }

  /** `empty` is a right identity of `combine`. */
  lemma CombineRightIdentity(p: EgglogProgram)
    ensures Combine(p, Empty()) == p
  {
    CombineSections(p, Empty());
    assert Combine(p, Empty()).SortCommands() == p.SortCommands();
    assert Combine(p, Empty()).FactCommands() == p.FactCommands();
  }

  /** `empty` is a left identity of `combine`. */
  lemma CombineLeftIdentity(p: EgglogProgram)
    requires Mergeable(p)
    ensures Combine(Empty(), p) == p
  {
    var r := Combine(Empty(), p);
    assert r.SortCommands() == p.SortCommands() by {
      CombineSections(Empty(), p);
      FilterAll(p.SortCommands(), c => SortIsNew({}, c));
    }
    assert r.FactCommands() == p.FactCommands() by {
      CombineSections(Empty(), p);
      FilterAll(p.FactCommands(), c => FactIsNew({}, c));
    }
    ProgramExt(r, p);
  }

  lemma NewSortsTwice(i1: set<Symbol>, i2: set<Symbol>, s: seq<Command>)
    ensures NewSorts(i1, NewSorts(i2, s)) == NewSorts(i1 + i2, s)
  {
    FilterFilter(s, c => SortIsNew(i2, c), c => SortIsNew(i1, c), c => SortIsNew(i1 + i2, c));
  }

  lemma NewFactsTwice(i1: set<Symbol>, i2: set<Symbol>, s: seq<Command>)
    ensures NewFacts(i1, NewFacts(i2, s)) == NewFacts(i1 + i2, s)
  {
    FilterFilter(s, c => FactIsNew(i2, c), c => FactIsNew(i1, c), c => FactIsNew(i1 + i2, c));
  }

  /** Filtering by the left index after a merge filtered by the middle
      index is filtering once by both. */
  lemma NewSortsRegroup(left: seq<Command>, ia: set<Symbol>, ib: set<Symbol>, bs: seq<Command>, cs: seq<Command>)
    ensures (left + NewSorts(ia, bs)) + NewSorts(ia + ib, cs) == left + NewSorts(ia, bs + NewSorts(ib, cs))
  {
    var x, y, z := NewSorts(ia, bs), NewSorts(ia + ib, cs), NewSorts(ib, cs);
    assert NewSorts(ia, z) == y by { NewSortsTwice(ia, ib, cs); }
    assert NewSorts(ia, bs + z) == x + y by { FilterAppend(bs, z, c => SortIsNew(ia, c)); }
    assert (left + x) + y == left + (x + y);
  }

  lemma NewFactsRegroup(left: seq<Command>, ja: set<Symbol>, jb: set<Symbol>, bs: seq<Command>, cs: seq<Command>)
    ensures (left + NewFacts(ja, bs)) + NewFacts(ja + jb, cs) == left + NewFacts(ja, bs + NewFacts(jb, cs))
  {
    var x, y, z := NewFacts(ja, bs), NewFacts(ja + jb, cs), NewFacts(jb, cs);
    assert NewFacts(ja, z) == y by { NewFactsTwice(ja, jb, cs); }
    assert NewFacts(ja, bs + z) == x + y by { FilterAppend(bs, z, c => FactIsNew(ja, c)); }
    assert (left + x) + y == left + (x + y);
  }

  lemma AssociativeSorts(a: EgglogProgram, b: EgglogProgram, c: EgglogProgram)
    requires Mergeable(b) && Mergeable(c)
    ensures Mergeable(Combine(b, c))
    ensures Combine(Combine(a, b), c).SortCommands() == Combine(a, Combine(b, c)).SortCommands()
  {
    CombinePreservesMergeable(b, c);
    var ab, bc := Combine(a, b), Combine(b, c);
    var ia, ib := a.sorts.symbols, b.sorts.symbols;
    var x, y := NewSorts(ia, b.SortCommands()), NewSorts(ia + ib, c.SortCommands());
    assert ab.SortCommands() == a.SortCommands() + x && ab.sorts.symbols == ia + ib by { CombineSections(a, b); }
    assert Combine(ab, c).SortCommands() == ab.SortCommands() + y by { CombineSections(ab, c); }
    assert bc.SortCommands() == b.SortCommands() + NewSorts(ib, c.SortCommands()) by { CombineSections(b, c); }
    assert Combine(a, bc).SortCommands() == a.SortCommands() + NewSorts(ia, bc.SortCommands()) by { CombineSections(a, bc); }
    NewSortsRegroup(a.SortCommands(), ia, ib, b.SortCommands(), c.SortCommands());
  }

  lemma AssociativeFacts(a: EgglogProgram, b: EgglogProgram, c: EgglogProgram)
    requires Mergeable(b) && Mergeable(c)
    ensures Mergeable(Combine(b, c))
    ensures Combine(Combine(a, b), c).FactCommands() == Combine(a, Combine(b, c)).FactCommands()
  {
    CombinePreservesMergeable(b, c);
    var ab, bc := Combine(a, b), Combine(b, c);
    var ja, jb := a.facts.symbols, b.facts.symbols;
    var x, y := NewFacts(ja, b.FactCommands()), NewFacts(ja + jb, c.FactCommands());
    assert ab.FactCommands() == a.FactCommands() + x && ab.facts.symbols == ja + jb by { CombineSections(a, b); }
    assert Combine(ab, c).FactCommands() == ab.FactCommands() + y by { CombineSections(ab, c); }
    assert bc.FactCommands() == b.FactCommands() + NewFacts(jb, c.FactCommands()) by { CombineSections(b, c); }
    assert Combine(a, bc).FactCommands() == a.FactCommands() + NewFacts(ja, bc.FactCommands()) by { CombineSections(a, bc); }
    NewFactsRegroup(a.FactCommands(), ja, jb, b.FactCommands(), c.FactCommands());
  }

  lemma AssociativeRest(a: EgglogProgram, b: EgglogProgram, c: EgglogProgram)
    requires Mergeable(b) && Mergeable(c) && Mergeable(Combine(b, c))
    ensures var lhs, rhs := Combine(Combine(a, b), c), Combine(a, Combine(b, c));
      && lhs.sorts.symbols == rhs.sorts.symbols && lhs.facts.symbols == rhs.facts.symbols
      && lhs.bindings == rhs.bindings
  {
  }

  lemma AssociativeFragments(a: EgglogProgram, b: EgglogProgram, c: EgglogProgram)
    requires Mergeable(b) && Mergeable(c) && Mergeable(Combine(b, c))
    ensures Combine(Combine(a, b), c).rules == Combine(a, Combine(b, c)).rules
    ensures Combine(Combine(a, b), c).schedules == Combine(a, Combine(b, c)).schedules
  {
    assert (a.rules + b.rules) + c.rules == a.rules + (b.rules + c.rules);
    assert (a.schedules + b.schedules) + c.schedules == a.schedules + (b.schedules + c.schedules);
  }

  /** `combine` is associative for every three programs, not only for ones
      with disjoint symbols: filtering against the left index and then
      against the middle index is filtering against their union. */
  lemma CombineAssociative(a: EgglogProgram, b: EgglogProgram, c: EgglogProgram)
    requires Mergeable(b) && Mergeable(c)
    ensures Mergeable(Combine(b, c))
    ensures Combine(Combine(a, b), c) == Combine(a, Combine(b, c))
  {
    CombinePreservesMergeable(b, c);
    AssociativeSorts(a, b, c);
    AssociativeFacts(a, b, c);
    AssociativeRest(a, b, c);
    AssociativeFragments(a, b, c);
    ProgramExt(Combine(Combine(a, b), c), Combine(a, Combine(b, c)));
  }

  /** No right sort's first symbol and no right fact's symbol is indexed on
      the left. */
  predicate Disjoint(a: EgglogProgram, b: EgglogProgram)
    requires Mergeable(b)
  {
    && (forall i :: 0 <= i < |b.SortCommands()| ==> SortSymbols(b.SortCommands()[i])[0] !in a.sorts.symbols)
    && (forall i :: 0 <= i < |b.FactCommands()| ==> FactSymbol(b.FactCommands()[i]) !in a.facts.symbols)
  }

  /** Without shared symbols nothing is filtered: sections are concatenated. */
  lemma CombineDisjoint(a: EgglogProgram, b: EgglogProgram)
    requires Mergeable(b) && Disjoint(a, b)
    ensures Combine(a, b).SortCommands() == a.SortCommands() + b.SortCommands()
    ensures Combine(a, b).FactCommands() == a.FactCommands() + b.FactCommands()
  {
    CombineSections(a, b);
    FilterAll(b.SortCommands(), c => SortIsNew(a.sorts.symbols, c));
    FilterAll(b.FactCommands(), c => FactIsNew(a.facts.symbols, c));
  }

  lemma CommuteSections(a: EgglogProgram, b: EgglogProgram)
    requires Mergeable(a) && Mergeable(b) && Disjoint(a, b) && Disjoint(b, a)
    ensures multiset(Combine(a, b).SortCommands()) == multiset(Combine(b, a).SortCommands())
    ensures multiset(Combine(a, b).FactCommands()) == multiset(Combine(b, a).FactCommands())
  {
    CombineDisjoint(a, b);
    CombineDisjoint(b, a);
  }

  lemma CommuteFragments(a: EgglogProgram, b: EgglogProgram)
    requires Mergeable(a) && Mergeable(b)
    ensures multiset(Combine(a, b).rules) == multiset(Combine(b, a).rules)
    ensures multiset(Combine(a, b).schedules) == multiset(Combine(b, a).schedules)
  {
  }

  /** Over programs disjoint in both directions `combine` commutes once the
      order of declarations and fragments is forgotten. */
  lemma CombineCommutesWhenDisjoint(a: EgglogProgram, b: EgglogProgram)
    requires Mergeable(a) && Mergeable(b) && Disjoint(a, b) && Disjoint(b, a)
    ensures multiset(Combine(a, b).SortCommands()) == multiset(Combine(b, a).SortCommands())
    ensures multiset(Combine(a, b).FactCommands()) == multiset(Combine(b, a).FactCommands())
    ensures Combine(a, b).sorts.symbols == Combine(b, a).sorts.symbols
    ensures Combine(a, b).facts.symbols == Combine(b, a).facts.symbols
    ensures multiset(Combine(a, b).rules) == multiset(Combine(b, a).rules)
    ensures multiset(Combine(a, b).schedules) == multiset(Combine(b, a).schedules)
    ensures Combine(a, b).bindings == Combine(b, a).bindings
  {
    CommuteSections(a, b);
    CommuteFragments(a, b);
  }

  /** A right sort whose first symbol the left index holds is not appended,
      so the merged sorts section is shorter than the two together; every
      symbol of the dropped declaration, variant names included, is still
      in the merged index when the right index covers it. */
  lemma CombineDropsIndexedSort(a: EgglogProgram, b: EgglogProgram, k: nat)
    requires Mergeable(b)
    requires k < |b.SortCommands()| && SortSymbols(b.SortCommands()[k])[0] in a.sorts.symbols
    ensures b.SortCommands()[k] !in Combine(a, b).SortCommands()[|a.SortCommands()|..]
    ensures |Combine(a, b).SortCommands()| < |a.SortCommands()| + |b.SortCommands()|
    ensures b.sorts.symbols == SymbolsOfSorts(b.SortCommands()) ==>
      forall x :: x in SortSymbols(b.SortCommands()[k]) ==> x in Combine(a, b).sorts.symbols
  {
    CombineSections(a, b);
    FilterDropsFailing(b.SortCommands(), c => SortIsNew(a.sorts.symbols, c), k);
  }

  /** The same for facts: an indexed right fact is not appended. */
  lemma CombineDropsIndexedFact(a: EgglogProgram, b: EgglogProgram, k: nat)
    requires Mergeable(b)
    requires k < |b.FactCommands()| && FactSymbol(b.FactCommands()[k]) in a.facts.symbols
    ensures b.FactCommands()[k] !in Combine(a, b).FactCommands()[|a.FactCommands()|..]
    ensures |Combine(a, b).FactCommands()| < |a.FactCommands()| + |b.FactCommands()|
  {
    CombineSections(a, b);
    FilterDropsFailing(b.FactCommands(), c => FactIsNew(a.facts.symbols, c), k);
  }

  /** Every declared symbol is indexed: true of every program the builders
      produce, and kept by `combine`. */
  predicate Covered(p: EgglogProgram) {
    && Mergeable(p)
    && SymbolsOfSorts(p.SortCommands()) <= p.sorts.symbols
    && FactSymbols(p.FactCommands()) <= p.facts.symbols
  }

  /** The index equals the declared symbols: true of builder outputs. */
  predicate Indexed(p: EgglogProgram) {
    && Mergeable(p)
    && SymbolsOfSorts(p.SortCommands()) == p.sorts.symbols
    && FactSymbols(p.FactCommands()) == p.facts.symbols
  }

  lemma SymbolsOfSortsMono(x: seq<Command>, y: seq<Command>)
    requires AllSortKind(x) && AllSortKind(y)
    requires forall c :: c in x ==> c in y
    ensures SymbolsOfSorts(x) <= SymbolsOfSorts(y)
  {
    forall z | z in SymbolsOfSorts(x) ensures z in SymbolsOfSorts(y) {
      var i :| 0 <= i < |x| && z in SortSymbols(x[i]);
      assert x[i] in y;
      var j :| 0 <= j < |y| && y[j] == x[i];
    }
  }

  lemma FactSymbolsMono(x: seq<Command>, y: seq<Command>)
    requires AllLet(x) && AllLet(y)
    requires forall c :: c in x ==> c in y
    ensures FactSymbols(x) <= FactSymbols(y)
  {
    forall z | z in FactSymbols(x) ensures z in FactSymbols(y) {
      var i :| 0 <= i < |x| && FactSymbol(x[i]) == z;
      assert x[i] in y;
      var j :| 0 <= j < |y| && y[j] == x[i];
    }
  }

  lemma CombinePreservesCovered(a: EgglogProgram, b: EgglogProgram)
    requires Covered(a) && Covered(b)
    ensures Covered(Combine(a, b))
  {
    CombineSections(a, b);
    var ks := NewSorts(a.sorts.symbols, b.SortCommands());
    var kf := NewFacts(a.facts.symbols, b.FactCommands());
    NewSortsAreSortKind(a.sorts.symbols, b.SortCommands());
    NewFactsAreLets(a.facts.symbols, b.FactCommands());
    SymbolsOfSortsAppend(a.SortCommands(), ks);
    FactSymbolsAppend(a.FactCommands(), kf);
    SymbolsOfSortsMono(ks, b.SortCommands());
    FactSymbolsMono(kf, b.FactCommands());
  }

  /** On a covered left operand the merge never puts two sorts (or two facts)
      with the same first symbol on opposite sides of the seam. Duplicates
      inside one operand are not removed. */
  lemma CombineNoDuplicatesAcrossSeam(a: EgglogProgram, b: EgglogProgram)
    requires Covered(a) && Mergeable(b)
    ensures Mergeable(Combine(a, b))
    ensures var r := Combine(a, b);
      forall i, j :: 0 <= i < |a.SortCommands()| <= j < |r.SortCommands()| ==>
        SortSymbols(r.SortCommands()[i])[0] != SortSymbols(r.SortCommands()[j])[0]
    ensures var r := Combine(a, b);
      forall i, j :: 0 <= i < |a.FactCommands()| <= j < |r.FactCommands()| ==>
        FactSymbol(r.FactCommands()[i]) != FactSymbol(r.FactCommands()[j])
  {
    var r := Combine(a, b);
    CombinePreservesMergeable(a, b);
    CombineSections(a, b);
    var ks := NewSorts(a.sorts.symbols, b.SortCommands());
    var kf := NewFacts(a.facts.symbols, b.FactCommands());
    NewSortsAreSortKind(a.sorts.symbols, b.SortCommands());
    NewFactsAreLets(a.facts.symbols, b.FactCommands());
    forall i, j | 0 <= i < |a.SortCommands()| <= j < |r.SortCommands()|
      ensures SortSymbols(r.SortCommands()[i])[0] != SortSymbols(r.SortCommands()[j])[0]
    {
      assert r.SortCommands()[i] == a.SortCommands()[i];
      assert r.SortCommands()[j] == ks[j - |a.SortCommands()|];
      assert ks[j - |a.SortCommands()|] in ks;
      assert SortSymbols(a.SortCommands()[i])[0] in SymbolsOfSorts(a.SortCommands());
    }
    forall i, j | 0 <= i < |a.FactCommands()| <= j < |r.FactCommands()|
      ensures FactSymbol(r.FactCommands()[i]) != FactSymbol(r.FactCommands()[j])
    {
      assert r.FactCommands()[i] == a.FactCommands()[i];
      assert r.FactCommands()[j] == kf[j - |a.FactCommands()|];
      assert kf[j - |a.FactCommands()|] in kf;
    }
  }

  /** Filtering a repeat of indexed declarations followed by declarations
      under unindexed names keeps exactly the latter. */
  lemma NewSortsOfExtension(index: set<Symbol>, cmds: seq<Command>, ext: seq<Command>)
    requires AllSortKind(cmds) && SymbolsOfSorts(cmds) <= index
    requires AllSortKind(ext) && forall k :: 0 <= k < |ext| ==> ext[k].name !in index
    ensures NewSorts(index, cmds + ext) == ext
  {
    FilterAppend(cmds, ext, c => SortIsNew(index, c));
    forall i | 0 <= i < |cmds| ensures !SortIsNew(index, cmds[i]) {
      assert SortSymbols(cmds[i])[0] in SymbolsOfSorts(cmds);
    }
    FilterNone(cmds, c => SortIsNew(index, c));
    forall k | 0 <= k < |ext| ensures SortIsNew(index, ext[k]) {
      assert SortSymbols(ext[k])[0] == ext[k].name;
    }
    FilterAll(ext, c => SortIsNew(index, c));
  }

  /** An update that repeats the left declarations, then declares sorts
      under names the left index does not hold, and has no facts, merges to
      the update's sort section and the program's own facts. */
  lemma CombineExtendsSorts(a: EgglogProgram, b: EgglogProgram, ext: seq<Command>)
    requires Mergeable(b) && AllSortKind(a.SortCommands())
    requires SymbolsOfSorts(a.SortCommands()) <= a.sorts.symbols
    requires AllSortKind(ext) && b.SortCommands() == a.SortCommands() + ext
    requires forall k :: 0 <= k < |ext| ==> ext[k].name !in a.sorts.symbols
    requires b.FactCommands() == []
    ensures Combine(a, b).SortCommands() == b.SortCommands()
    ensures Combine(a, b).FactCommands() == a.FactCommands()
  {
    CombineSections(a, b);
    NewSortsOfExtension(a.sorts.symbols, a.SortCommands(), ext);
    assert NewFacts(a.facts.symbols, []) == [];
  }

  /** Merging a program whose sorts are a copy of the left sorts (the
      duplicate-sort test) leaves the sorts section and index as they were;
      the flattened list grows only by the right fragments. */
  lemma CombineWithOwnSorts(a: EgglogProgram, b: EgglogProgram)
    requires Mergeable(b) && AllSortKind(a.SortCommands())
    requires b.sorts == a.sorts && a.sorts.symbols == SymbolsOfSorts(a.SortCommands())
    requires b.FactCommands() == [] && b.facts.symbols == {}
    ensures Combine(a, b).sorts == a.sorts
    ensures Combine(a, b).facts == a.facts
    ensures |ToCommandList(Combine(a, b))| == |ToCommandList(a)| + SumLengths(b.rules) + SumLengths(b.schedules)
  {
    var r := Combine(a, b);
    assert NewSorts(a.sorts.symbols, b.SortCommands()) == [] by {
      forall i | 0 <= i < |b.SortCommands()| ensures !SortIsNew(a.sorts.symbols, b.SortCommands()[i]) {
        assert SortSymbols(b.SortCommands()[i])[0] in SymbolsOfSorts(a.SortCommands());
      }
      FilterNone(b.SortCommands(), c => SortIsNew(a.sorts.symbols, c));
    }
    assert NewFacts(a.facts.symbols, []) == [];
    assert r.SortCommands() == a.SortCommands() && r.FactCommands() == a.FactCommands() by {
      CombineSections(a, b);
    }
    assert r.sorts == a.sorts && r.facts == a.facts;
    ConcatAppend(a.rules, b.rules);
    ConcatAppend(a.schedules, b.schedules);
  }

  /** Flattening a merge: left sorts, appended sorts, left facts, appended
      facts, left rules, right rules, left schedules, right schedules. */
  lemma ToCommandListOfCombine(a: EgglogProgram, b: EgglogProgram)
    requires Mergeable(b)
    ensures ToCommandList(Combine(a, b)) ==
      (a.SortCommands() + NewSorts(a.sorts.symbols, b.SortCommands()))
      + ((a.FactCommands() + NewFacts(a.facts.symbols, b.FactCommands()))
      + ((Concat(a.rules) + Concat(b.rules)) + (Concat(a.schedules) + Concat(b.schedules))))
  {
    CombineSections(a, b);
    ConcatAppend(a.rules, b.rules);
    ConcatAppend(a.schedules, b.schedules);
    ToCommandListParts(Combine(a, b));
  }

  /** Bindings never reach the engine. */
  lemma ToCommandListIgnoresBindings(p: EgglogProgram, bindings: set<Symbol>)
    ensures ToCommandList(p.(bindings := bindings)) == ToCommandList(p)
  {
  }
}
