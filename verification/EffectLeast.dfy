/** The taints that effect inference computes are the least that no block can change. */
module EffectLeast {
  import opened Wrappers
  import opened Mvir
  import opened Effects
  import opened ForwardDataflow
  import opened EffectTaints
  import opened EffectSoundness
  import opened EffectSummaries
  import opened EffectRun

  ghost predicate StatesLe(s: map<Label, TaintState>, t: map<Label, TaintState>) {
    forall l :: l in s && l in t ==> Le(s[l], t[l])
  }

  /** A fixpoint below every other one. */
  ghost predicate LeastSolved(env: Env, states: map<Label, TaintState>, reached: set<Label>) {
    && Solved(env, states, reached) && (forall l :: l in reached <==> Reachable(env.func, l))
    && forall t, r :: Solved(env, t, r) ==> StatesLe(states, t)
  }

  // ----- what the engine keeps -----------------------------------------------------------

  predicate Empty(st: TaintState) {
    st.direct == {} && st.carried == {}
  }

  ghost predicate BelowAll(env: Env, l: Label, st: TaintState) {
    forall t, r :: Solved(env, t, r) && l in t ==> Le(st, t[l])
  }

  ghost predicate Sound(env: Env, l: Label, st: TaintState) {
    && AtEntry(env, l, st) && Bounded(env, st) && CallsHaveSources(env, st)
    && (!Reachable(env.func, l) ==> Empty(st))
  }

  ghost function LeastInv(env: Env): (Label, TaintState) -> bool {
    (l: Label, st: TaintState) => Sound(env, l, st) && BelowAll(env, l, st)
  }

  lemma EmptyStays(env: Env, id: ValueId, st: TaintState)
    requires Empty(st)
    ensures Empty(Transfer(env, id, st))
  {
    hide Of, Root, OfAll, OfOp, Returned, Copied, With;
    EmptyOf(st);
    EmptyCopied(st, id);
  }

  lemma EmptyCopied(st: TaintState, id: ValueId)
    requires Empty(st)
    ensures forall ops :: Empty(Copied(st, id, ops))
    ensures forall v :: With(st.direct, v, {}) == {} && With(st.carried, v, {}) == {}
  {
    hide OfAll;
    EmptyOf(st);
  }

  lemma EmptyOf(st: TaintState)
    requires Empty(st)
    ensures forall op :: OfOp(st.direct, op) == {} && OfOp(st.carried, op) == {}
    ensures forall op :: OfOp(st.direct, op) + OfOp(st.carried, op) == {}
    ensures forall ops :: OfAll(st.direct, ops) == {} && OfAll(st.carried, ops) == {}
    ensures forall ret, args :: Returned(ret, st, args) == {}
  {
    assert forall op :: OfOp(st.direct, op) == {} && OfOp(st.carried, op) == {};
  }

  lemma {:induction false} EmptyFlows(env: Env, insts: seq<ValueId>, st: TaintState)
    requires Empty(st)
    ensures Empty(TransferInsts(TaintAnalysis(env), insts, st))
    decreases |insts|
  {
    hide Transfer;
    if insts != [] {
      EmptyStays(env, insts[0], st);
      EmptyFlows(env, insts[1..], Transfer(env, insts[0], st));
    }
  }

  /** Merging keeps sources: what a call's result has on either side came from an argument there. */
  lemma MergeHasSources(env: Env, d: TaintState, s: TaintState)
    requires CallsHaveSources(env, d) && CallsHaveSources(env, s)
    ensures CallsHaveSources(env, MergeTaints(d, s))
  {
    var m := MergeTaints(d, s);
    forall v | 0 <= v < |env.func.values| && env.func.values[v].CallDirect? ensures HasSource(env, m, v) {
      assert HasSource(env, d, v) && HasSource(env, s, v);
      var call := env.func.values[v];
      if call.callee in env.table && Of(m.direct, v) != {} {
        var ret := env.table[call.callee].ret;
        ReturnedRises(ret, ret, d, m, call.args);
        ReturnedRises(ret, ret, s, m, call.args);
        var x :| x in Of(m.direct, v);
        assert x in Of(d.direct, v) || x in Of(s.direct, v);
      }
    }
  }

  /** What flows along an edge into a target that is sound leaves it so. */
  lemma SoundStays(env: Env, i: nat, y: Label, s: TaintState, d: TaintState)
    requires WellFormed(env.func) && PointersBefore(env.func)
    requires i < |env.func.blocks| && y in Successors(env.func.blocks[i])
    requires Sound(env, env.func.blocks[i].name, s) && Sound(env, y, d)
    ensures Sound(env, y, MergeTaints(d, TransferInsts(TaintAnalysis(env), env.func.blocks[i].insts, s)))
  {
    hide Bounded, CallsHaveSources, PointersBefore, Le, Reachable;
    var block := env.func.blocks[i];
    var flow := TransferInsts(TaintAnalysis(env), block.insts, s);
    InstsBounded(env, block.insts, s);
    MergeStays(env, y, d, flow);
    RaisedSelf(env);
    SelfLe(s);
    InstsRise(env, env, block.insts, s, s);
    MergeHasSources(env, d, flow);
    assert Edge(env.func, block.name, y);
    if Reachable(env.func, block.name) { ReachableStep(env.func, block.name, y); }
    else { EmptyFlows(env, block.insts, s); }
  }

  /** What flows along an edge stays below a fixpoint, of the same table or a raised one. */
  lemma BelowStays(
      env: Env, up: Env, t: map<Label, TaintState>, r: set<Label>, i: nat, y: Label, s: TaintState, d: TaintState)
    requires Raised(env, up) && Solved(up, t, r)
    requires i < |env.func.blocks| && y in Successors(env.func.blocks[i])
    requires Sound(env, env.func.blocks[i].name, s) && Sound(env, y, d)
    requires env.func.blocks[i].name in t && Le(s, t[env.func.blocks[i].name]) && y in t && Le(d, t[y])
    ensures Le(MergeTaints(d, TransferInsts(TaintAnalysis(env), env.func.blocks[i].insts, s)), t[y])
  {
    hide Bounded, CallsHaveSources, Raised, Reachable;
    SameFunction(env, up);
    var block := env.func.blocks[i];
    if Reachable(env.func, block.name) {
      ReachesAll(up, t, r, block.name);
      EdgeCovers(env, up, t, r, block, y, s);
    } else {
      EmptyFlows(env, block.insts, s);
    }
  }

  lemma ReachesAll(env: Env, t: map<Label, TaintState>, r: set<Label>, l: Label)
    requires Solved(env, t, r) && Reachable(env.func, l)
    ensures l in r
  {
    var path :| IsPathBetween(env.func, path, env.func.blocks[0].name, l);
    FixpointReaches(env.func, TaintAnalysis(env), t, r, path);
  }

  lemma SoundStarts(env: Env, l: Label)
    requires ArgsAreSlots(env.func)
    ensures Sound(env, l, if IsEntry(env.func, l) then EntryTaints(env.func.argCount) else TaintState({}, {}, map[]))
  {
    hide Bounded;
    EntryBounded(env);
    EntryHasSources(env);
    if IsEntry(env.func, l) { assert IsPathBetween(env.func, [l], l, l); }
    var none := TaintState({}, {}, map[]);
    forall v | 0 <= v < |env.func.values| && env.func.values[v].CallDirect? ensures HasSource(env, none, v) {
      assert Of(none.direct, v) == {};
    }
  }

  lemma BelowStarts(up: Env, t: map<Label, TaintState>, r: set<Label>, l: Label)
    requires Solved(up, t, r) && l in t
    ensures Le(if IsEntry(up.func, l) then EntryTaints(up.func.argCount) else TaintState({}, {}, map[]), t[l])
  {
    assert AtEntry(up, l, t[l]);
  }

  lemma LeastStays(env: Env)
    requires WellFormed(env.func) && PointersBefore(env.func) && ArgsAreSlots(env.func)
    ensures Invariant(env.func, TaintAnalysis(env), LeastInv(env))
  {
    hide PointersBefore, ArgsAreSlots, Sound, Le, Solved;
    var a, inv := TaintAnalysis(env), LeastInv(env);
    RaisedSelf(env);
    forall l ensures inv(l, if IsEntry(env.func, l) then a.entry else a.bottom) {
      SoundStarts(env, l);
      forall t, r | Solved(env, t, r) && l in t ensures Le(if IsEntry(env.func, l) then a.entry else a.bottom, t[l]) {
        BelowStarts(env, t, r, l);
      }
    }
    forall i, y, s, d, n: nat |
      0 <= i < |env.func.blocks| && y in Successors(env.func.blocks[i]) && inv(env.func.blocks[i].name, s) && inv(y, d)
      ensures inv(y, a.merge(d, Flow(a, env.func.blocks[i], y, s), n))
    {
      var block := env.func.blocks[i];
      var flow := TransferInsts(a, block.insts, s);
      assert Flow(a, block, y, s) == flow;
      SoundStays(env, i, y, s, d);
      forall t, r | Solved(env, t, r) && y in t ensures Le(MergeTaints(d, flow), t[y]) {
        HasLabels(env, t, r, i);
        BelowStays(env, env, t, r, i, y, s, d);
      }
    }
  }

  lemma HasLabels(env: Env, t: map<Label, TaintState>, r: set<Label>, i: nat)
    requires Solved(env, t, r) && i < |env.func.blocks|
    ensures env.func.blocks[i].name in t
  {
    assert env.func.blocks[i].name in Labels(env.func);
  }

  lemma AscendsWithin(env: Env, inv: (Label, TaintState) -> bool)
    requires forall l, st :: inv(l, st) ==> AtEntry(env, l, st) && Bounded(env, st)
    ensures Ascends(TaintAnalysis(env), inv, Rank(), 2 * |Universe(env)|)
  {
    hide Bounded, AtEntry, Universe;
    TaintsAscend(env);
    var a, all := TaintAnalysis(env), TaintInv(env);
    forall l, s | inv(l, s) ensures Rank()(s) <= 2 * |Universe(env)| { assert all(l, s); }
    forall l, d, s, n: nat | inv(l, d) && inv(l, a.merge(d, s, n)) && a.merge(d, s, n) != d
      ensures Rank()(d) < Rank()(a.merge(d, s, n))
    {
      assert all(l, d) && all(l, a.merge(d, s, n));
    }
  }

  // ----- the least fixpoint --------------------------------------------------------------

  lemma IsLeast(env: Env, states: map<Label, TaintState>, reached: set<Label>)
    requires ForwardFixpoint(env.func, TaintAnalysis(env), states, reached)
    requires forall l :: l in reached <==> Reachable(env.func, l)
    requires forall l :: l in states ==> LeastInv(env)(l, states[l])
    ensures LeastSolved(env, states, reached)
  {
    hide Bounded, CallsHaveSources, Le, ForwardFixpoint;
  }

  /** The taints' fixpoint, the least one, within a bounded number of sweeps. */
  method SolveTaints(env: Env) returns (states: map<Label, TaintState>, sweeps: nat, reached: set<Label>)
    requires WellFormed(env.func) && PointersBefore(env.func) && ArgsAreSlots(env.func)
    ensures LeastSolved(env, states, reached)
    ensures forall l :: l in states ==> Bounded(env, states[l])
    ensures |env.func.blocks| > 0 ==> sweeps <= |env.func.blocks| * (2 * |Universe(env)| + 1)
  {
    hide Bounded, AtEntry, CallsHaveSources;
    LeastStays(env);
    AscendsWithin(env, LeastInv(env));
    states, sweeps, reached := RunForward(env.func, TaintAnalysis(env), map[], LeastInv(env), Rank(),
      2 * |Universe(env)|);
    IsLeast(env, states, reached);
  }

  lemma LeAntisymmetric(s: TaintState, t: TaintState)
    requires Le(s, t) && Le(t, s)
    ensures s == t
  {}

  /** Whatever the engine keeps holds of the least fixpoint, however that was found. */
  lemma LeastHas(env: Env, states: map<Label, TaintState>, reached: set<Label>, inv: (Label, TaintState) -> bool)
    requires LeastSolved(env, states, reached)
    requires Invariant(env.func, TaintAnalysis(env), inv)
    requires forall l, st :: inv(l, st) ==> LeastInv(env)(l, st)
    ensures forall l :: l in states ==> inv(l, states[l])
  {
    hide Bounded, AtEntry, CallsHaveSources, Le, ForwardFixpoint, Invariant;
    assert WellFormed(env.func) by { Formed(env, states, reached); }
    AscendsWithin(env, inv);
    var found, r := FixpointExists(env.func, TaintAnalysis(env), inv, Rank(), 2 * |Universe(env)|);
    IsLeast(env, found, r);
    forall l | l in states ensures inv(l, states[l]) {
      Labelled(env, states, reached, found, r, l);
      assert StatesLe(states, found) && StatesLe(found, states);
      LeAntisymmetric(states[l], found[l]);
    }
  }

  lemma Formed(env: Env, states: map<Label, TaintState>, reached: set<Label>)
    requires LeastSolved(env, states, reached)
    ensures WellFormed(env.func)
  {}

  lemma Labelled(
      env: Env, s: map<Label, TaintState>, r: set<Label>, t: map<Label, TaintState>, q: set<Label>, l: Label)
    requires Solved(env, s, r) && Solved(env, t, q) && l in s
    ensures l in t
  {}

  /** The least fixpoint is sound, and below every fixpoint for a raised table. */
  lemma LeastIsBelow(
      env: Env, up: Env, states: map<Label, TaintState>, reached: set<Label>, t: map<Label, TaintState>, r: set<Label>)
    requires LeastSolved(env, states, reached) && PointersBefore(env.func) && ArgsAreSlots(env.func)
    requires Raised(env, up) && Solved(up, t, r)
    ensures StatesLe(states, t) && forall l :: l in states ==> Sound(env, l, states[l])
  {
    hide PointersBefore, ArgsAreSlots, Sound, Le, Solved, Raised, BelowAll;
    Formed(env, states, reached);
    var a, least := TaintAnalysis(env), LeastInv(env);
    var inv := (l: Label, st: TaintState) => LeastInv(env)(l, st) && (l in t ==> Le(st, t[l]));
    LeastStays(env);
    SameFunction(env, up);
    forall l ensures inv(l, if IsEntry(env.func, l) then a.entry else a.bottom) {
      assert least(l, if IsEntry(env.func, l) then a.entry else a.bottom);
      if l in t { BelowStarts(up, t, r, l); }
    }
    forall i, y, s, d, n: nat |
      0 <= i < |env.func.blocks| && y in Successors(env.func.blocks[i]) && inv(env.func.blocks[i].name, s) && inv(y, d)
      ensures inv(y, a.merge(d, Flow(a, env.func.blocks[i], y, s), n))
    {
      var block := env.func.blocks[i];
      assert least(block.name, s) && least(y, d);
      assert Flow(a, block, y, s) == TransferInsts(a, block.insts, s);
      if y in t {
        HasLabels(up, t, r, i);
        BelowStays(env, up, t, r, i, y, s, d);
      }
    }
    LeastHas(env, states, reached, inv);
  }
}
