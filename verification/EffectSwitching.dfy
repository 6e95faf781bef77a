/** A function on which the summaries never settle: each of the two results that inference can give
    for it makes inference give the other. */
module EffectSwitching {
  import opened Wrappers
  import opened Mvir
  import opened Effects
  import opened ForwardDataflow
  import opened EffectTaints
  import opened EffectSoundness
  import opened EffectSummaries
  import opened EffectRun
  import opened EffectLeast
  import opened EffectInfer
  import EffectUnique
  import Interprocedural
  import ModuleEffects

  /** `fn f(a, b) { let x = &a; if .. { b } else { f(0, &x) } }` */
  function Body(): Function {
    Function(2,
      [BasicBlock("entry", [0, 1, 2, 3, 4], Some(CondBr(Boolean(true), "carried", "direct"))),
       BasicBlock("carried", [5], Some(Ret(Some(Value(5))))),
       BasicBlock("direct", [6, 7], Some(Ret(Some(Value(7)))))],
      [Alloca, Alloca, Alloca, Borrow(false, Value(0)), Store(Value(2), Value(3)), Load(Value(1)),
       Borrow(false, Value(2)), CallDirect("f", [Number("0"), Value(6)])])
  }

  function Switching(): Interprocedural.Callable {
    Interprocedural.Callable("f", false, true, Body())
  }

  ghost predicate IsSwitching(env: Env) {
    env.func == Body() && env.returnsBorrow && "f" in env.table
  }

  /** The stored result says that what the second argument carries is borrowed. */
  predicate SaysCarried(env: Env)
    requires "f" in env.table
  {
    var r := env.table["f"].ret;
    r.BorrowsCarried? && 1 in r.indices
  }

  lemma BodyInferable()
    ensures Inferable(Body())
  {
    assert Labels(Body()) == {"entry", "carried", "direct"} by {
      assert Body().blocks[0].name == "entry" && Body().blocks[1].name == "carried"
        && Body().blocks[2].name == "direct";
    }
  }

  // ----- the taints ----------------------------------------------------------------------

  function BranchDirect(): Taints {
    {(0, Direct(0)), (1, Direct(1)), (3, Direct(0))}
  }

  function BranchCarried(): Taints {
    {(0, Carried(0)), (1, Carried(1)), (3, Carried(0)), (2, Direct(0)), (2, Carried(0))}
  }

  /** The taints on entering either branch. */
  function Branch(): TaintState {
    TaintState(BranchDirect(), BranchCarried(), map[])
  }

  lemma Slots(env: Env, st: TaintState)
    requires IsSwitching(env)
    ensures Transfer(env, 0, st) == Transfer(env, 1, st) == Transfer(env, 2, st) == st
  {}

  lemma EntryIs()
    ensures EntryTaints(2) == TaintState({(0, Direct(0)), (1, Direct(1))}, {(0, Carried(0)), (1, Carried(1))}, map[])
  {}

  lemma BorrowIs(env: Env)
    requires IsSwitching(env)
    ensures Transfer(env, 3, EntryTaints(2))
      == TaintState(BranchDirect(), {(0, Carried(0)), (1, Carried(1)), (3, Carried(0))}, map[3 := Value(0)])
  {
    EntryIs();
    var st := EntryTaints(2);
    assert OfOp(st.direct, Value(0)) == {Direct(0)} && OfOp(st.carried, Value(0)) == {Carried(0)};
    OfOne(st.direct, Value(0));
    OfOne(st.carried, Value(0));
  }

  lemma OfOne(m: Taints, op: Operand)
    ensures OfAll(m, [op]) == OfOp(m, op)
  {
    forall t | t in OfOp(m, op) ensures t in OfAll(m, [op]) { assert t in OfOp(m, [op][0]); }
  }

  lemma StoreIs(env: Env)
    requires IsSwitching(env)
    ensures var st := TaintState(BranchDirect(), {(0, Carried(0)), (1, Carried(1)), (3, Carried(0))},
      map[3 := Value(0)]);
            Transfer(env, 4, st) == Branch().(aliases := st.aliases)
  {
    var st := TaintState(BranchDirect(), {(0, Carried(0)), (1, Carried(1)), (3, Carried(0))}, map[3 := Value(0)]);
    assert OfOp(st.direct, Value(3)) == {Direct(0)} && OfOp(st.carried, Value(3)) == {Carried(0)};
  }

  lemma EntryFlows(env: Env)
    requires IsSwitching(env)
    ensures Cleared(TransferInsts(TaintAnalysis(env), [0, 1, 2, 3, 4], EntryTaints(2))) == Branch()
  {
    hide Transfer, EntryTaints;
    var a, e := TaintAnalysis(env), EntryTaints(2);
    Slots(env, e);
    BorrowIs(env);
    StoreIs(env);
    Peel(env, [0, 1, 2, 3, 4], e);
    Peel(env, [1, 2, 3, 4], e);
    Peel(env, [2, 3, 4], e);
    Peel(env, [3, 4], e);
    Peel(env, [4], Transfer(env, 3, e));
    assert [0, 1, 2, 3, 4][1..] == [1, 2, 3, 4] && [1, 2, 3, 4][1..] == [2, 3, 4] && [2, 3, 4][1..] == [3, 4]
      && [3, 4][1..] == [4] && [4][1..] == [];
    assert TransferInsts(a, [], Transfer(env, 4, Transfer(env, 3, e))) == Transfer(env, 4, Transfer(env, 3, e));
  }

  lemma Peel(env: Env, insts: seq<ValueId>, st: TaintState)
    requires insts != []
    ensures TransferInsts(TaintAnalysis(env), insts, st)
      == TransferInsts(TaintAnalysis(env), insts[1..], Transfer(env, insts[0], st))
    ensures |insts| == 1 ==> TransferInsts(TaintAnalysis(env), insts, st) == Transfer(env, insts[0], st)
  {}

  /** The first branch returns what the second argument carries. */
  lemma CarriedReturns(env: Env)
    requires IsSwitching(env)
    ensures OfOp(TransferInsts(TaintAnalysis(env), [5], Branch()).direct, Value(5)) == {Carried(1)}
  {
    Peel(env, [5], Branch());
    assert OfOp(BranchCarried(), Value(1)) == {Carried(1)};
    assert Of(Transfer(env, 5, Branch()).direct, 5) == {Carried(1)};
  }

  lemma SecondBorrow(env: Env)
    requires IsSwitching(env)
    ensures var st := Transfer(env, 6, Branch());
            && st.direct == BranchDirect() && Of(st.carried, 6) == {Direct(0), Carried(0)}
  {
    hide OfAll;
    OfOne(BranchDirect(), Value(2));
    OfOne(BranchCarried(), Value(2));
    assert OfOp(BranchDirect(), Value(2)) == {};
    assert OfOp(BranchCarried(), Value(2)) == {Direct(0), Carried(0)};
  }

  /** The second returns the first argument, if that is what the stored result says of the call, and
      nothing otherwise. */
  lemma DirectReturns(env: Env)
    requires IsSwitching(env)
    ensures OfOp(TransferInsts(TaintAnalysis(env), [6, 7], Branch()).direct, Value(7))
      == if SaysCarried(env) then {Direct(0), Carried(0)} else {}
  {
    hide Transfer;
    Peel(env, [6, 7], Branch());
    var st := Transfer(env, 6, Branch());
    assert [6, 7][1..] == [7];
    Peel(env, [7], st);
    SecondBorrow(env);
    CallReturns(env, st);
  }

  lemma CallReturns(env: Env, st: TaintState)
    requires IsSwitching(env) && st.direct == BranchDirect() && Of(st.carried, 6) == {Direct(0), Carried(0)}
    ensures Of(Transfer(env, 7, st).direct, 7) == if SaysCarried(env) then {Direct(0), Carried(0)} else {}
  {
    hide Returned;
    var ret := env.table["f"].ret;
    var args := [Number("0"), Value(6)];
    ReturnedIs(ret, st);
    assert Of(st.direct, 7) == {};
    assert env.func.values[7] == CallDirect("f", args);
    OfReplaced(st.direct, 7, Returned(ret, st, args));
  }

  lemma OfReplaced(m: Taints, v: ValueId, ts: set<Taint>)
    ensures Of(With(Without(m, v), v, ts), v) == ts
  {
    forall t | t in ts ensures t in Of(With(Without(m, v), v, ts), v) {
      assert (v, t) in With(Without(m, v), v, ts);
    }
  }

  lemma ReturnedIs(ret: ReturnEffect, st: TaintState)
    requires st.direct == BranchDirect() && Of(st.carried, 6) == {Direct(0), Carried(0)}
    ensures Returned(ret, st, [Number("0"), Value(6)])
      == if ret.BorrowsCarried? && 1 in ret.indices then {Direct(0), Carried(0)} else {}
  {
    var args := [Number("0"), Value(6)];
    assert OfOp(st.direct, args[1]) == {} && OfOp(st.direct, args[0]) == {} && OfOp(st.carried, args[0]) == {};
    if ret.BorrowsCarried? && 1 in ret.indices {
      assert forall t :: t in Of(st.carried, 6) ==> t in OfOp(st.carried, args[1]);
    }
  }

  // ----- the states ----------------------------------------------------------------------

  function Solution(): map<Label, TaintState> {
    map["entry" := EntryTaints(2), "carried" := Branch(), "direct" := Branch()]
  }

  lemma SolutionSolves(env: Env)
    requires IsSwitching(env)
    ensures Solved(env, Solution(), {"entry", "carried", "direct"})
  {
    hide Transfer, TransferInsts, EntryTaints, Branch, PointersBefore;
    BodyInferable();
    EntryFlows(env);
    var blocks, states, reached := env.func.blocks, Solution(), {"entry", "carried", "direct"};
    assert blocks[0].name == "entry" && blocks[1].name == "carried" && blocks[2].name == "direct";
    assert Labels(env.func) == reached;
    SettledEdge(env, "carried");
    SettledEdge(env, "direct");
    assert Successors(blocks[1]) == [] && Successors(blocks[2]) == [];
    forall i | 0 <= i < 3 ensures BlockStable(TaintAnalysis(env), blocks[i], reached, states) {
      assert i == 0 || i == 1 || i == 2;
    }
    SelfLe(EntryTaints(2));
    BranchStarts();
  }

  lemma BranchStarts()
    ensures Branch().aliases == map[] && EntryTaints(2).aliases == map[]
  {}

  lemma SettledEdge(env: Env, y: Label)
    requires IsSwitching(env) && (y == "carried" || y == "direct")
    ensures EdgeStable(TaintAnalysis(env), env.func.blocks[0], y, Solution())
  {
    hide Transfer, TransferInsts, EntryTaints;
    EntryFlows(env);
    var a, block := TaintAnalysis(env), env.func.blocks[0];
    assert block.name == "entry" && Solution()[block.name] == EntryTaints(2) && Solution()[y] == Branch();
    var flow := Flow(a, block, y, EntryTaints(2));
    assert flow == TransferInsts(a, [0, 1, 2, 3, 4], EntryTaints(2));
    assert flow.direct == BranchDirect() && flow.carried == BranchCarried();
    assert MergeTaints(Branch(), flow) == Branch();
    assert a.merge(Solution()[y], flow, 0) == Solution()[y];
  }

  // ----- the two results -----------------------------------------------------------------

  lemma BranchPath(env: Env, y: Label)
    requires IsSwitching(env) && (y == "carried" || y == "direct")
    ensures IsPath(env.func, ["entry", y]) && PathTaints(env, ["entry", y]) == Branch()
  {
    hide TransferInsts, EntryTaints, Branch;
    BodyInferable();
    EntryFlows(env);
    var blocks := env.func.blocks;
    var path, init := ["entry", y], ["entry"];
    assert y in Successors(blocks[0]) && blocks[0].name == "entry";
    assert Edge(env.func, "entry", y);
    assert "entry" in Labels(env.func);
    assert path[..1] == init && IsPath(env.func, init) && BlockNamed(env.func, "entry") == blocks[0];
    assert PathTaints(env, init) == EntryTaints(2);
  }

  /** If the stored result is a borrow of what the second argument carries, the new one borrows from
      the first argument itself. */
  lemma SwitchesToDirect(env: Env, s: Summary)
    requires IsSwitching(env) && SaysCarried(env) && Infers(env, s)
    ensures s.ret.BorrowsFrom? && 0 in s.ret.indices
  {
    hide Infers, TransferInsts, Branch;
    BodyInferable();
    BranchPath(env, "direct");
    DirectReturns(env);
    assert env.func.blocks[2].insts[..2] == [6, 7];
    NoReturnMissed(env, s, ["entry", "direct"], 2, Value(7), true, 0);
  }

  lemma NothingDirect(env: Env, s: Summary)
    requires IsSwitching(env) && !SaysCarried(env) && Infers(env, s)
    ensures !s.ret.BorrowsFrom?
  {
    hide Le, LeastSolved, Collected, MeetsBlocks, TransferInsts, Branch, Returns, Inferable, Solved;
    var states, reached, visits :| IsRun(env, states, reached, visits, s);
    BodyInferable();
    EffectUnique.GivesCollected(env, states, reached, visits, s);
    ReturnIsExact(env, visits);
    SolutionSolves(env);
    if s.ret.BorrowsFrom? {
      var i := s.ret.indices[0];
      assert i in s.ret.indices && Returns(env, visits, true, i);
      NoDirectReturn(env, states, reached, visits, s, i);
    }
  }

  lemma NoDirectReturn(
      env: Env, states: map<Label, TaintState>, reached: set<Label>, visits: seq<Visit>, s: Summary, i: nat)
    requires IsSwitching(env) && !SaysCarried(env) && IsRun(env, states, reached, visits, s)
    ensures !Returns(env, visits, true, i)
  {
    hide Le, LeastSolved, Collected, MeetsBlocks, TransferInsts, Branch, Solved, Sound;
    if Returns(env, visits, true, i) {
      var k :| 0 <= k < |visits| && ReturnsAt(env, visits[k], true, i);
      assert VisitBelow(env, states, reached, visits[k]);
      var b: nat :| b < |env.func.blocks| && env.func.blocks[b].name in reached
        && VisitsIn(env, env.func.blocks[b], states[env.func.blocks[b].name], visits[k]);
      var block := env.func.blocks[b];
      var j: nat :| VisitsBlock(env, block, states[block.name], j, visits[k]);
      BelowSolution(env, states, reached, block, j, visits[k].st);
      CarriedReturns(env);
      DirectReturns(env);
      assert env.func.blocks[1].insts[..1] == [5] && env.func.blocks[2].insts[..2] == [6, 7];
      assert b == 1 || b == 2;
      TaintRises(visits[k].st, StateAt(env, block, Solution()[block.name], j), visits[k].term.value.value, Direct(i));
      assert false;
    }
  }

  lemma BelowSolution(
      env: Env, states: map<Label, TaintState>, reached: set<Label>, block: BasicBlock, j: nat, st: TaintState)
    requires IsSwitching(env) && LeastSolved(env, states, reached)
    requires block in env.func.blocks && block.name in states && j <= |block.insts|
    requires Le(st, StateAt(env, block, states[block.name], j))
    ensures block.name in Solution() && Le(st, StateAt(env, block, Solution()[block.name], j))
  {
    hide Le, LeastSolved, TransferInsts, Branch, Solved, CallsHaveSources, Bounded, AtEntry;
    BodyInferable();
    SolutionSolves(env);
    RaisedSelf(env);
    LeastIsBelow(env, env, states, reached, Solution(), {"entry", "carried", "direct"});
    assert Sound(env, block.name, states[block.name]);
    InstsRise(env, env, block.insts[..j], states[block.name], Solution()[block.name]);
    EffectUnique.LeTransitive(st, StateAt(env, block, states[block.name], j),
      StateAt(env, block, Solution()[block.name], j));
  }

  /** If it is anything else, the new one is a borrow of what the second argument carries. */
  lemma SwitchesToCarried(env: Env, s: Summary)
    requires IsSwitching(env) && !SaysCarried(env) && Infers(env, s)
    ensures s.ret.BorrowsCarried? && 1 in s.ret.indices
  {
    hide Infers, TransferInsts, Branch;
    BodyInferable();
    NothingDirect(env, s);
    BranchPath(env, "carried");
    CarriedReturns(env);
    assert env.func.blocks[1].insts[..1] == [5];
    NoReturnMissed(env, s, ["entry", "carried"], 1, Value(5), false, 1);
  }

  // ----- no run ends ---------------------------------------------------------------------

  lemma NeverFresh(table: Interprocedural.Table)
    ensures !Interprocedural.Fresh(ModuleEffects.SetupOf([Switching()]), table, "f")
  {
    hide Infers, Body;
    var m := [Switching()];
    var su := ModuleEffects.SetupOf(m);
    assert m[0] == Switching() && Interprocedural.FunctionsByName(m)["f"] == Switching();
    if "f" in table {
      BodyInferable();
      OnlySwitching(m);
      ModuleEffects.NamedIs(su, "f", table);
      var env := ModuleEffects.EnvOf(Switching(), table);
      var s := Interprocedural.InferNamed(su, "f", table);
      if SaysCarried(env) { SwitchesToDirect(env, s); } else { SwitchesToCarried(env, s); }
    }
  }

  lemma OnlySwitching(m: seq<Interprocedural.Callable>)
    requires m == [Switching()]
    ensures ModuleEffects.AllInferable(m) && ModuleEffects.IsSetup(ModuleEffects.SetupOf(m),
      Interprocedural.FunctionsByName(m))
  {
    BodyInferable();
    ModuleEffects.ListedOnes(m);
  }

  /** Whatever the order of the sweeps, the worklist for this one function is never done. */
  lemma SwitchingNeverExits(callers: Interprocedural.Callers, trace: seq<Interprocedural.Run>)
    requires var su := ModuleEffects.SetupOf([Switching()]);
             && Interprocedural.KnowsCallers(su, callers) && Interprocedural.IsRun(su, callers, trace)
             && Interprocedural.IsStart(su, trace[0])
    ensures !Interprocedural.Exited(trace[|trace| - 1])
  {
    var su := ModuleEffects.SetupOf([Switching()]);
    forall t ensures !Interprocedural.Consistent(su, t) { NeverFresh(t); }
    Interprocedural.NoExitWithout(su, callers, trace);
  }
}
