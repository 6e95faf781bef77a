/** Effect summaries of a module: the worklist with the effect inference of each function, when it
    ends, and a module on which it does not. */
module ModuleEffects {
  import opened Wrappers
  import opened Mvir
  import opened Effects
  import opened Interprocedural
  import EffectTaints
  import EffectInfer
  import EffectRun
  import EffectSoundness
  import EffectMixing
  import EffectUnique

  // ----- the inference of each function --------------------------------------------------

  function EnvOf(f: Callable, table: Table): EffectTaints.Env {
    EffectTaints.Env(f.body, table, f.returnsBorrow)
  }

  ghost function EffectsOf(): Inference {
    (f: Callable, table: Table) =>
      if EffectInfer.Inferable(f.body) then EffectUnique.Inferred(EnvOf(f, table)) else DefaultFor(f.body.argCount)
  }

  ghost function SetupOf(m: seq<Callable>): Setup {
    Setup(FunctionsByName(m), EffectsOf())
  }

  ghost predicate AllInferable(m: seq<Callable>) {
    forall i :: 0 <= i < |m| ==> InRange(m[i]) && (!m[i].isExtern ==> EffectInfer.Inferable(m[i].body))
  }

  ghost predicate IsSetup(su: Setup, fMap: map<Name, Callable>) {
    su == Setup(fMap, EffectsOf()) && forall n :: Live(su, n) ==> EffectInfer.Inferable(fMap[n].body)
  }

  lemma InRangeAll(m: seq<Callable>)
    requires AllInferable(m)
    ensures forall i :: 0 <= i < |m| ==> InRange(m[i])
  {}

  lemma ListedOnes(m: seq<Callable>)
    requires AllInferable(m)
    ensures IsSetup(SetupOf(m), FunctionsByName(m))
  {
    hide EffectInfer.Inferable;
    var su := SetupOf(m);
    forall n | Live(su, n) ensures EffectInfer.Inferable(su.fMap[n].body) {
      var i :| 0 <= i < |m| && m[i] == su.fMap[n];
    }
  }

  /** Inference sees the entries of what the function calls, and needs no others. */
  lemma SeesEnough(f: Callable, table: Table)
    requires EffectInfer.Inferable(f.body)
    ensures EffectUnique.Inferred(EnvOf(f, Visible(f, table))) == EffectUnique.Inferred(EnvOf(f, table))
  {
    hide EffectInfer.Inferable;
    var env, other := EnvOf(f, table), EnvOf(f, Visible(f, table));
    forall callee | EffectRun.CallsFunction(f.body, callee) ensures Calls(f, callee) {
      var v :| 0 <= v < |f.body.values| && IsListed(f.body, v) && f.body.values[v].CallDirect?
        && f.body.values[v].callee == callee;
      var b :| 0 <= b < |f.body.blocks| && v in f.body.blocks[b].insts;
      var k :| 0 <= k < |f.body.blocks[b].insts| && f.body.blocks[b].insts[k] == v;
      assert IsCallTo(f.body.values[f.body.blocks[b].insts[k]], callee);
      assert CallsIn(f.body.values, f.body.blocks[b].insts, callee);
    }
    assert EffectRun.AgreeOnCalls(env, other);
    EffectUnique.InferDependsOnCallees(env, other);
  }

  lemma NamedIs(su: Setup, n: Name, table: Table)
    requires IsSetup(su, su.fMap) && Live(su, n)
    ensures EffectInfer.Inferable(su.fMap[n].body)
    ensures InferNamed(su, n, table) == EffectUnique.Inferred(EnvOf(su.fMap[n], table))
    ensures EffectInfer.Infers(EnvOf(su.fMap[n], table), InferNamed(su, n, table))
  {
    hide EffectInfer.Inferable, EffectInfer.Infers;
    SeesEnough(su.fMap[n], table);
  }

  lemma InferredIs(su: Setup, n: Name, table: Table, s: Summary)
    requires IsSetup(su, su.fMap) && Live(su, n) && EffectInfer.Infers(EnvOf(su.fMap[n], table), s)
    ensures s == InferNamed(su, n, table)
  {
    hide EffectInfer.Inferable, EffectInfer.Infers;
    NamedIs(su, n, table);
    EffectUnique.InfersOne(EnvOf(su.fMap[n], table), s, InferNamed(su, n, table));
  }

  lemma BehavesWell(m: seq<Callable>)
    requires AllInferable(m)
    ensures WellBehaved(SetupOf(m))
  {
    hide EffectInfer.Inferable, EffectInfer.Infers, Leq, Shaped, ShapedTable;
    var su := SetupOf(m);
    ListedOnes(m);
    forall n, t | Live(su, n) && ShapedTable(su, t) ensures AsInferred(InferNamed(su, n, t), su.fMap[n].body.argCount) {
      NamedIs(su, n, t);
      EffectUnique.InfersShaped(EnvOf(su.fMap[n], t), InferNamed(su, n, t));
    }
  }

  // ----- when it is monotone -------------------------------------------------------------

  lemma TableRaises(su: Setup, n: Name, t: Table, u: Table)
    requires Live(su, n) && ShapedTable(su, t) && ShapedTable(su, u) && TableLeq(su, t, u)
    ensures EffectSoundness.Raised(EnvOf(su.fMap[n], t), EnvOf(su.fMap[n], u))
  {
    forall c | c in t ensures EffectSoundness.CalleeRaised(t[c], u[c]) {
      LeqReflexive(t[c]);
      if Live(su, c) { RetRises(t[c].ret, u[c].ret); }
    }
  }

  lemma RetRises(a: ReturnEffect, b: ReturnEffect)
    requires ReturnLeq(a, b) && !b.UnknownReturn?
    ensures EffectSoundness.RetRaised(a, b)
  {}

  /** For no function the result carries borrows by one table and borrows directly by a greater
      one. */
  ghost predicate NeverSwitches(su: Setup) {
    forall n, t, u :: Live(su, n) && ShapedTable(su, t) && ShapedTable(su, u) && TableLeq(su, t, u) ==>
      !(InferNamed(su, n, t).ret.BorrowsCarried? && InferNamed(su, n, u).ret.BorrowsFrom?)
  }

  /** Effect inference is monotone exactly when no result switches from carried to direct. */
  lemma MonotoneIff(m: seq<Callable>)
    requires AllInferable(m)
    ensures Monotone(SetupOf(m)) <==> NeverSwitches(SetupOf(m))
  {
    hide EffectInfer.Inferable, EffectInfer.Infers, ShapedTable, TableLeq, InferNamed, EffectSoundness.Raised,
      EffectSoundness.CalleeRaised;
    var su := SetupOf(m);
    ListedOnes(m);
    forall n, t, u | Live(su, n) && ShapedTable(su, t) && ShapedTable(su, u) && TableLeq(su, t, u)
      ensures Leq(InferNamed(su, n, t), InferNamed(su, n, u)) <==>
        !(InferNamed(su, n, t).ret.BorrowsCarried? && InferNamed(su, n, u).ret.BorrowsFrom?)
    {
      NamedIs(su, n, t);
      NamedIs(su, n, u);
      TableRaises(su, n, t, u);
      EffectUnique.InferenceRises(EnvOf(su.fMap[n], t), EnvOf(su.fMap[n], u), InferNamed(su, n, t),
        InferNamed(su, n, u));
    }
  }

  /** The result of no function mixes direct and carried borrows, which each body shows by itself. */
  ghost predicate NoneMixes(m: seq<Callable>) {
    forall i :: 0 <= i < |m| && !m[i].isExtern && m[i].returnsBorrow ==> EffectMixing.NoMix(m[i].body)
  }

  lemma UnmixedIsMonotone(m: seq<Callable>)
    requires AllInferable(m) && NoneMixes(m)
    ensures Monotone(SetupOf(m))
  {
    hide EffectInfer.Inferable, EffectInfer.Infers, ShapedTable, TableLeq, InferNamed, EffectMixing.NoMix, Monotone;
    var su := SetupOf(m);
    ListedOnes(m);
    forall n, t, u | Live(su, n) && ShapedTable(su, t) && ShapedTable(su, u) && TableLeq(su, t, u)
      ensures !(InferNamed(su, n, t).ret.BorrowsCarried? && InferNamed(su, n, u).ret.BorrowsFrom?)
    {
      NamedIs(su, n, t);
      NamedIs(su, n, u);
      var i :| 0 <= i < |m| && m[i] == su.fMap[n];
      if m[i].returnsBorrow {
        EffectMixing.UnmixedNeverSwitches(
          EnvOf(su.fMap[n], t), EnvOf(su.fMap[n], u), InferNamed(su, n, t), InferNamed(su, n, u));
      } else {
        EffectUnique.NothingReturns(EnvOf(su.fMap[n], t), InferNamed(su, n, t));
      }
    }
    MonotoneIff(m);
  }

  lemma NothingDefaulted(t: Table)
    ensures DefaultedBy(FunctionsByName([]), t)
  {}

  // ----- the computation -----------------------------------------------------------------

  class InterproceduralContext {
    var summaries: Table

    constructor ()
      ensures summaries == map[]
    {
      summaries := map[];
    }

    method InsertDefaults(m: seq<Callable>)
      modifies this
      ensures DefaultedBy(FunctionsByName(m), summaries)
      ensures SameOutside(FunctionsByName(m), old(summaries), summaries)
    {
      hide DefaultedBy, DefaultFor, FunctionsByName;
      NothingDefaulted(summaries);
      assert m[..0] == [];
      for i := 0 to |m|
        invariant DefaultedBy(FunctionsByName(m[..i]), summaries)
        invariant SameOutside(FunctionsByName(m), old(summaries), summaries)
      {
        ghost var before := summaries;
        if !m[i].isExtern {
          summaries := summaries[m[i].name := DefaultFor(m[i].body.argCount)];
        }
        DefaultsMore(m, i, before, summaries);
      }
      assert m[..|m|] == m;
    }

    /** Infers one function anew, as `Process` says. */
    method Refresh(
        ghost su: Setup, fMap: map<Name, Callable>, callers: Callers, n: Name, worklist0: set<Name>, changed0: bool)
      returns (worklist: set<Name>, changed: bool)
      requires IsSetup(su, fMap)
      requires Live(su, n) ==> n in summaries
      modifies this
      ensures var r := Process(su, callers, Run(old(summaries), worklist0, {}, changed0), n);
              summaries == r.table && worklist == r.worklist && changed == r.changed
    {
      worklist, changed := worklist0, changed0;
      if n in fMap && !fMap[n].isExtern {
        var oldSummary := summaries[n];
        var newSummary := EffectInfer.Infer(EnvOf(fMap[n], summaries));
        InferredIs(su, n, summaries, newSummary);
        if oldSummary != newSummary {
          summaries := summaries[n := newSummary];
          changed := true;
          worklist := worklist + CallersOf(callers, n);
        }
      }
    }

    /** With monotone inference the worklist runs dry, in the least table that is consistent. */
    method ComputeSummaries(m: seq<Callable>)
      requires AllInferable(m) && Monotone(SetupOf(m))
      modifies this
      ensures LeastConsistent(SetupOf(m), summaries)
      ensures SameOutside(FunctionsByName(m), old(summaries), summaries)
    {
      InRangeAll(m);
      var fMap, callers := BuildMaps(m);
      ghost var su := SetupOf(m);
      BehavesWell(m);
      ListedOnes(m);
      SetupKnowsCallers(m, su, callers);
      ListedByName(m, su);
      InsertDefaults(m);
      ghost var start := summaries;
      StartIsGood(su, callers, start);
      var worklist := fMap.Keys;
      var changed := true;
      while changed
        invariant Good(su, callers, start, Run(summaries, worklist, {}, changed))
        decreases Slack(su, m, summaries), changed
      {
        SweepStarts(su, callers, start, summaries, worklist);
        worklist, changed := Sweep(su, fMap, callers, m, start, worklist);
      }
      ExitIsLeast(su, callers, start, summaries, worklist);
      LeastOfClosed(su, summaries);
    }

    /** One sweep over the functions of a worklist, in any order. */
    method Sweep(
        ghost su: Setup, fMap: map<Name, Callable>, callers: Callers, ghost m: seq<Callable>, ghost start: Table,
        pending0: set<Name>)
      returns (worklist: set<Name>, changed: bool)
      requires IsSetup(su, fMap)
      requires Good(su, callers, start, Run(summaries, {}, pending0, false)) && NamesListed(su, m)
      modifies this
      ensures Good(su, callers, start, Run(summaries, worklist, {}, changed))
      ensures Slacked(su, m, old(summaries), summaries, changed)
    {
      changed := false;
      worklist := {};
      var pending := pending0;
      while pending != {}
        invariant Good(su, callers, start, Run(summaries, worklist, pending, changed))
        invariant Slacked(su, m, old(summaries), summaries, changed)
        decreases pending
      {
        var n :| n in pending;
        worklist, pending, changed := SweepOne(su, fMap, callers, m, start, n, worklist, pending, changed);
      }
    }

    method SweepOne(
        ghost su: Setup, fMap: map<Name, Callable>, callers: Callers, ghost m: seq<Callable>, ghost start: Table,
        n: Name, worklist0: set<Name>, pending0: set<Name>, changed0: bool)
      returns (worklist: set<Name>, pending: set<Name>, changed: bool)
      requires IsSetup(su, fMap) && Good(su, callers, start, Run(summaries, worklist0, pending0, changed0))
      requires n in pending0 && NamesListed(su, m)
      modifies this
      ensures Good(su, callers, start, Run(summaries, worklist, pending, changed))
      ensures pending == pending0 - {n}
      ensures if changed && !changed0 then Slack(su, m, summaries) < Slack(su, m, old(summaries))
              else changed == changed0 && Slack(su, m, summaries) <= Slack(su, m, old(summaries))
      ensures !changed ==> summaries == old(summaries)
    {
      ghost var r := Run(summaries, worklist0, pending0, changed0);
      ProcessKeepsGood(su, callers, m, start, r, n);
      pending := pending0 - {n};
      worklist, changed := Refresh(su, fMap, callers, n, worklist0, changed0);
      assert Run(summaries, worklist, pending, changed) == Process(su, callers, r, n);
    }
  }

  /** Where no function mixes, the worklist ends, in the least consistent table. */
  method SummarizeUnmixed(context: InterproceduralContext, m: seq<Callable>)
    requires AllInferable(m) && NoneMixes(m)
    modifies context
    ensures LeastConsistent(SetupOf(m), context.summaries)
    ensures SameOutside(FunctionsByName(m), old(context.summaries), context.summaries)
  {
    UnmixedIsMonotone(m);
    context.ComputeSummaries(m);
  }
}
