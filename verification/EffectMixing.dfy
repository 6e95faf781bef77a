/** A condition on a function alone under which its result never switches from carried to direct
    borrows, whatever is known of the functions it calls. */
module EffectMixing {
  import opened Wrappers
  import opened Mvir
  import opened Effects
  import opened ForwardDataflow
  import opened EffectTaints
  import opened EffectSoundness
  import opened EffectSummaries
  import opened EffectRun
  import opened EffectLeast
  import opened EffectInfer
  import opened EffectUnique

  // ----- taints with nothing known of callees --------------------------------------------

  /** A call's result may stem from all its arguments and from all they carry. */
  function Spread(func: Function, id: ValueId, st: TaintState): TaintState {
    if id < |func.values| && func.values[id].CallDirect? then
      var args := func.values[id].args;
      st.(direct := With(st.direct, id, OfAll(st.direct, args) + OfAll(st.carried, args)))
    else Transfer(Env(func, map[], false), id, st)
  }

  function SpreadAll(func: Function, insts: seq<ValueId>, st: TaintState): TaintState {
    if insts == [] then st else SpreadAll(func, insts[1..], Spread(func, insts[0], st))
  }

  /** States that no block of the function can add to. */
  ghost predicate SpreadClosed(func: Function, t: map<Label, TaintState>) {
    && t.Keys == Labels(func)
    && (forall l :: l in t ==> t[l].aliases == map[] && (IsEntry(func, l) ==> Le(EntryTaints(func.argCount), t[l])))
    && (forall i, y :: 0 <= i < |func.blocks| && y in Successors(func.blocks[i]) ==> SpreadEdge(func, t, i, y))
  }

  ghost predicate SpreadEdge(func: Function, t: map<Label, TaintState>, i: nat, y: Label)
    requires i < |func.blocks|
  {
    var block := func.blocks[i];
    block.name in t && y in t && Le(Cleared(SpreadAll(func, block.insts, t[block.name])), t[y])
  }

  /** Some return gives back a value that stems from argument `i` or from what it carries. */
  ghost predicate SpreadReturns(func: Function, t: map<Label, TaintState>, direct: bool, i: nat) {
    exists b :: 0 <= b < |func.blocks| && func.blocks[b].name in t
      && SpreadReturnsAt(func, func.blocks[b], t[func.blocks[b].name], direct, i)
  }

  ghost predicate SpreadReturnsAt(func: Function, block: BasicBlock, st: TaintState, direct: bool, i: nat) {
    && block.terminator.Some? && block.terminator.value.Ret? && block.terminator.value.value.Some?
    && (if direct then Direct(i) else Carried(i))
       in OfOp(SpreadAll(func, block.insts, st).direct, block.terminator.value.value.value)
  }

  /** The returns give back arguments or what arguments carry, but not both. */
  ghost predicate NoMix(func: Function) {
    exists t :: SpreadClosed(func, t) && Unmixed(func, t)
  }

  ghost predicate Unmixed(func: Function, t: map<Label, TaintState>) {
    forall i, j :: !(SpreadReturns(func, t, true, i) && SpreadReturns(func, t, false, j))
  }

  // ----- they bound the taints for every table -------------------------------------------

  lemma ReturnedSpreads(ret: ReturnEffect, s: TaintState, t: TaintState, args: seq<Operand>)
    requires s.direct <= t.direct && s.carried <= t.carried
    ensures Returned(ret, s, args) <= OfAll(t.direct, args) + OfAll(t.carried, args)
  {
    OfRises(s.direct, t.direct);
    OfRises(s.carried, t.carried);
    forall x | x in Returned(ret, s, args) ensures x in OfAll(t.direct, args) + OfAll(t.carried, args) {
      match ret
      case BorrowsFrom(indices) =>
        var k :| k in indices && k < |args| && x in OfOp(s.direct, args[k]);
        assert x in OfOp(t.direct, args[k]);
      case BorrowsCarried(indices) =>
        var k :| k in indices && k < |args| && x in OfOp(s.carried, args[k]);
        assert x in OfOp(t.carried, args[k]);
    }
  }

  lemma TransferSpreads(env: Env, id: ValueId, s: TaintState, t: TaintState)
    requires Le(s, t)
    ensures Le(Transfer(env, id, s), Spread(env.func, id, t))
  {
    hide Returned, OfAll;
    if id < |env.func.values| && env.func.values[id].CallDirect? {
      var call := env.func.values[id];
      if call.callee in env.table { ReturnedSpreads(env.table[call.callee].ret, s, t, call.args); }
    } else {
      OtherRises(env, id, s, t);
      OtherAlike(env, Env(env.func, map[], false), id, t);
    }
  }

  lemma {:induction false} InstsSpread(env: Env, insts: seq<ValueId>, s: TaintState, t: TaintState)
    requires Le(s, t)
    ensures Le(TransferInsts(TaintAnalysis(env), insts, s), SpreadAll(env.func, insts, t))
    decreases |insts|
  {
    hide Le, Transfer, Spread;
    if insts != [] {
      TransferSpreads(env, insts[0], s, t);
      InstsSpread(env, insts[1..], Transfer(env, insts[0], s), Spread(env.func, insts[0], t));
    }
  }

  lemma EdgeSpreads(env: Env, t: map<Label, TaintState>, i: nat, y: Label, s: TaintState, d: TaintState)
    requires SpreadClosed(env.func, t) && i < |env.func.blocks| && y in Successors(env.func.blocks[i])
    requires env.func.blocks[i].name in t && Le(s, t[env.func.blocks[i].name])
    requires y in t && Le(d, t[y])
    ensures Le(MergeTaints(d, TransferInsts(TaintAnalysis(env), env.func.blocks[i].insts, s)), t[y])
  {
    var block := env.func.blocks[i];
    assert SpreadEdge(env.func, t, i, y);
    InstsSpread(env, block.insts, s, t[block.name]);
  }

  lemma LeastSpreads(env: Env, states: map<Label, TaintState>, reached: set<Label>, t: map<Label, TaintState>)
    requires LeastSolved(env, states, reached) && Inferable(env.func) && SpreadClosed(env.func, t)
    ensures StatesLe(states, t)
  {
    hide Sound, Le, Solved, BelowAll, PointersBefore, ArgsAreSlots, SpreadEdge;
    var a, least := TaintAnalysis(env), LeastInv(env);
    var inv := (l: Label, st: TaintState) => LeastInv(env)(l, st) && (l in t ==> Le(st, t[l]));
    LeastStays(env);
    forall l ensures inv(l, if IsEntry(env.func, l) then a.entry else a.bottom) {
      assert least(l, if IsEntry(env.func, l) then a.entry else a.bottom);
      SpreadStarts(env.func, t, l);
    }
    forall i, y, s, d, n: nat |
      0 <= i < |env.func.blocks| && y in Successors(env.func.blocks[i]) && inv(env.func.blocks[i].name, s) && inv(y, d)
      ensures inv(y, a.merge(d, Flow(a, env.func.blocks[i], y, s), n))
    {
      var block := env.func.blocks[i];
      assert least(block.name, s) && least(y, d);
      assert Flow(a, block, y, s) == TransferInsts(a, block.insts, s);
      assert SpreadEdge(env.func, t, i, y);
      SpreadHas(env.func, t, i, y);
      EdgeSpreads(env, t, i, y, s, d);
    }
    LeastHas(env, states, reached, inv);
  }

  lemma SpreadHas(func: Function, t: map<Label, TaintState>, i: nat, y: Label)
    requires i < |func.blocks| && SpreadEdge(func, t, i, y)
    ensures func.blocks[i].name in t && y in t
  {}

  lemma SpreadStarts(func: Function, t: map<Label, TaintState>, l: Label)
    requires SpreadClosed(func, t)
    ensures l in t ==> Le(if IsEntry(func, l) then EntryTaints(func.argCount) else TaintState({}, {}, map[]), t[l])
  {}

  // ----- hence no switch -----------------------------------------------------------------

  lemma ReturnSpreads(
      env: Env, states: map<Label, TaintState>, reached: set<Label>, visits: seq<Visit>, s: Summary,
      t: map<Label, TaintState>, direct: bool, i: nat)
    requires IsRun(env, states, reached, visits, s) && Inferable(env.func) && SpreadClosed(env.func, t)
    requires Returns(env, visits, direct, i)
    ensures SpreadReturns(env.func, t, direct, i)
  {
    hide Le, LeastSolved, Collected, Inferable, MeetsBlocks, SpreadClosed, SpreadAll, StateAt;
    LeastSpreads(env, states, reached, t);
    var k :| 0 <= k < |visits| && ReturnsAt(env, visits[k], direct, i);
    assert VisitBelow(env, states, reached, visits[k]);
    var b: nat :| b < |env.func.blocks| && env.func.blocks[b].name in reached
      && VisitsIn(env, env.func.blocks[b], states[env.func.blocks[b].name], visits[k]);
    var block := env.func.blocks[b];
    var j: nat :| VisitsBlock(env, block, states[block.name], j, visits[k]);
    SpreadLabels(env.func, t, b);
    StateSpreads(env, block, states[block.name], t[block.name]);
    LeTransitive(visits[k].st, StateAt(env, block, states[block.name], j),
      SpreadAll(env.func, block.insts, t[block.name]));
    TaintRises(visits[k].st, SpreadAll(env.func, block.insts, t[block.name]), block.terminator.value.value.value,
      if direct then Direct(i) else Carried(i));
    assert SpreadReturnsAt(env.func, block, t[block.name], direct, i);
  }

  lemma SpreadLabels(func: Function, t: map<Label, TaintState>, b: nat)
    requires SpreadClosed(func, t) && b < |func.blocks|
    ensures func.blocks[b].name in t
  {
    assert func.blocks[b].name in Labels(func);
  }

  lemma StateSpreads(env: Env, block: BasicBlock, st: TaintState, st': TaintState)
    requires Le(st, st')
    ensures Le(StateAt(env, block, st, |block.insts|), SpreadAll(env.func, block.insts, st'))
  {
    assert block.insts[..|block.insts|] == block.insts;
    InstsSpread(env, block.insts, st, st');
  }

  /** A function whose returns do not mix has, for no two tables, a result that carries borrows by
      one and borrows directly by the other. */
  lemma UnmixedNeverSwitches(env: Env, up: Env, s: Summary, s': Summary)
    requires env.func == up.func && Inferable(env.func) && NoMix(env.func)
    requires Infers(env, s) && Infers(up, s')
    ensures !(s.ret.BorrowsCarried? && s'.ret.BorrowsFrom?)
  {
    hide IsRun, Inferable, SpreadClosed, SpreadReturns, Returns;
    var t :| SpreadClosed(env.func, t) && Unmixed(env.func, t);
    if s.ret.BorrowsCarried? && s'.ret.BorrowsFrom? {
      var i := ListedReturn(env, s, t, false);
      var j := ListedReturn(up, s', t, true);
      assert false;
    }
  }

  lemma ListedReturn(env: Env, s: Summary, t: map<Label, TaintState>, direct: bool) returns (i: nat)
    requires Infers(env, s) && Inferable(env.func) && SpreadClosed(env.func, t)
    requires if direct then s.ret.BorrowsFrom? else s.ret.BorrowsCarried?
    ensures SpreadReturns(env.func, t, direct, i)
  {
    hide IsRun, Inferable, SpreadClosed, SpreadReturns, Returns;
    var states, reached, visits :| IsRun(env, states, reached, visits, s);
    GivesCollected(env, states, reached, visits, s);
    ReturnIsExact(env, visits);
    i := s.ret.indices[0];
    assert i in s.ret.indices;
    ReturnSpreads(env, states, reached, visits, s, t, direct, i);
  }
}
