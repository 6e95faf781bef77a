/** Effect inference is a function: its result is what the least fixpoint does, merged. */
module EffectUnique {
  import opened Wrappers
  import opened Mvir
  import opened Effects
  import opened ForwardDataflow
  import opened EffectTaints
  import opened EffectSoundness
  import opened EffectSummaries
  import opened EffectRun
  import opened EffectLeast
  import opened EffectInfer

  // ----- visits below visits -------------------------------------------------------------

  /** `w` meets the same position, with no fewer taints. */
  ghost predicate VisitLe(v: Visit, w: Visit) {
    Le(v.st, w.st) && match (v, w)
      case (AtInst(id, _), AtInst(id', _)) => id == id'
      case (AtEnd(term, _), AtEnd(term', _)) => term == term'
      case _ => false
  }

  ghost predicate VisitUnder(v: Visit, more: seq<Visit>) {
    exists n :: 0 <= n < |more| && VisitLe(v, more[n])
  }

  /** Every visit of the first list is below one of the second. */
  ghost predicate VisitsLe(visits: seq<Visit>, more: seq<Visit>) {
    forall k :: 0 <= k < |visits| ==> VisitUnder(visits[k], more)
  }

  lemma LeTransitive(s: TaintState, t: TaintState, u: TaintState)
    requires Le(s, t) && Le(t, u)
    ensures Le(s, u)
  {}

  /** The visits of one run are below those of another for a raised table. */
  lemma RunsRise(
      env: Env, up: Env, states: map<Label, TaintState>, reached: set<Label>, visits: seq<Visit>, s: Summary,
      states': map<Label, TaintState>, reached': set<Label>, visits': seq<Visit>, s': Summary)
    requires Inferable(env.func) && Raised(env, up)
    requires IsRun(env, states, reached, visits, s) && IsRun(up, states', reached', visits', s')
    ensures VisitsLe(visits, visits')
  {
    hide Raised, Le, VisitUnder, LeastSolved, Collected, Inferable, VisitsBlock, MeetsBlock, Bounded, CallsHaveSources,
      AtEntry;
    SameFunction(env, up);
    Solves(up, states', reached');
    IsInferable(env.func);
    LeastIsBelow(env, up, states, reached, states', reached');
    forall k | 0 <= k < |visits| ensures VisitUnder(visits[k], visits') {
      assert VisitBelow(env, states, reached, visits[k]);
      var b: nat :| b < |env.func.blocks| && env.func.blocks[b].name in reached
        && VisitsIn(env, env.func.blocks[b], states[env.func.blocks[b].name], visits[k]);
      var block := env.func.blocks[b];
      var j: nat :| VisitsBlock(env, block, states[block.name], j, visits[k]);
      SameReached(env, up, states, reached, states', reached', block.name);
      assert MeetsBlock(up, block, states'[block.name], visits');
      PositionRises(env, up, block, states[block.name], states'[block.name], j, visits[k], visits');
    }
  }

  lemma IsInferable(func: Function)
    requires Inferable(func)
    ensures PointersBefore(func) && ArgsAreSlots(func)
  {}

  lemma Solves(env: Env, states: map<Label, TaintState>, reached: set<Label>)
    requires LeastSolved(env, states, reached)
    ensures Solved(env, states, reached)
  {}

  lemma SameReached(
      env: Env, up: Env, states: map<Label, TaintState>, reached: set<Label>,
      states': map<Label, TaintState>, reached': set<Label>, l: Label)
    requires env.func == up.func && LeastSolved(env, states, reached) && LeastSolved(up, states', reached')
      && l in reached
    ensures l in reached' && l in states && l in states'
  {}

  lemma PositionRises(
      env: Env, up: Env, block: BasicBlock, st: TaintState, st': TaintState, j: nat, v: Visit, visits': seq<Visit>)
    requires Raised(env, up) && Le(st, st') && CallsHaveSources(env, st)
    requires VisitsBlock(env, block, st, j, v) && MeetsBlock(up, block, st', visits')
    ensures VisitUnder(v, visits')
  {
    hide Raised, Le, CallsHaveSources;
    InstsRise(env, up, block.insts[..j], st, st');
    LeTransitive(v.st, StateAt(env, block, st, j), StateAt(up, block, st', j));
    if v.AtInst? {
      assert MeetsInst(up, block, st', j, visits');
      var n :| 0 <= n < |visits'| && visits'[n] == AtInst(block.insts[j], StateAt(up, block, st', j));
      assert VisitLe(v, visits'[n]);
    } else {
      var n :| 0 <= n < |visits'| && visits'[n] == AtEnd(block.terminator.value, StateAt(up, block, st', j));
      assert VisitLe(v, visits'[n]);
    }
  }

  // ----- what is noted rises with them ---------------------------------------------------

  lemma DoesRises(env: Env, up: Env, v: Visit, w: Visit, i: nat)
    requires Raised(env, up) && VisitLe(v, w)
    ensures ArgLeq(Does(env, v, i), Does(up, w, i)) && ReturnedBy(env, v) <= ReturnedBy(up, w)
  {
    hide ArgLeq, EffectOn, Raised, CallsHaveSources;
    SameFunction(env, up);
    OfRises(v.st.direct, w.st.direct);
    if v.AtInst? {
      EffectRises(env, up, v.id, v.st, w.st, i);
    } else {
      var e := NoEffect().(ownership := Consume);
      NoEffectIsLeast(e);
      ArgOrder(e, e, e);
      ArgOrder(NoEffect(), NoEffect(), NoEffect());
    }
  }

  lemma ArgsRise(env: Env, up: Env, visits: seq<Visit>, visits': seq<Visit>, i: nat)
    requires Raised(env, up) && VisitsLe(visits, visits') && i < env.func.argCount
    ensures i < up.func.argCount && ArgLeq(Collected(env, visits).args[i], Collected(up, visits').args[i])
  {
    hide ArgLeq, VisitLe, Does, Raised, Collected;
    SameFunction(env, up);
    var bound := Collected(up, visits').args[i];
    CollectedHas(up, visits', i);
    forall k | 0 <= k < |visits| ensures ArgLeq(Does(env, visits[k], i), bound) {
      assert VisitUnder(visits[k], visits');
      var n :| 0 <= n < |visits'| && VisitLe(visits[k], visits'[n]);
      DoesRises(env, up, visits[k], visits'[n], i);
      ArgOrder(Does(env, visits[k], i), Does(up, visits'[n], i), bound);
    }
    CollectedBelow(env, visits, i, bound);
  }

  lemma ReturnsRise(env: Env, up: Env, visits: seq<Visit>, visits': seq<Visit>, direct: bool, i: nat)
    requires Raised(env, up) && VisitsLe(visits, visits') && Returns(env, visits, direct, i)
    ensures Returns(up, visits', direct, i)
  {
    hide VisitLe, ReturnedBy, Raised;
    SameFunction(env, up);
    var k :| 0 <= k < |visits| && ReturnsAt(env, visits[k], direct, i);
    assert VisitUnder(visits[k], visits');
    var n :| 0 <= n < |visits'| && VisitLe(visits[k], visits'[n]);
    DoesRises(env, up, visits[k], visits'[n], i);
    assert ReturnsAt(up, visits'[n], direct, i);
  }

  // ----- summaries -----------------------------------------------------------------------

  /** The return effect lists arguments in order, without repeats and in range. */
  lemma {:induction false} CollectedShaped(env: Env, visits: seq<Visit>)
    ensures Shaped(Collected(env, visits), env.func.argCount)
    decreases |visits|
  {
    hide EffectOn, ArgMerge, OfOp;
    if visits != [] {
      var init := visits[..|visits| - 1];
      CollectedShaped(env, init);
      var v := visits[|visits| - 1];
      VisitReturns(env, v, Collected(env, init));
      EffectShaped(ReturnedBy(env, v), Collected(env, init).ret, env.func.argCount);
    }
  }

  lemma EffectShaped(ts: set<Taint>, ret: ReturnEffect, n: nat)
    requires ReturnShaped(ret, n)
    ensures ReturnShaped(ReturnEffectOf(ts, ret, n), n)
  {
    var direct, carried := ArgsOf(ts, true, n), ArgsOf(ts, false, n);
    assert forall k :: 0 <= k < |direct| ==> direct[k] in direct;
    assert forall k :: 0 <= k < |carried| ==> carried[k] in carried;
    var first := if direct == [] then ret else ReturnMerge(ret, BorrowsFrom(direct));
    MergeShaped(ret, BorrowsFrom(direct), n);
    MergeShaped(first, BorrowsCarried(carried), n);
  }

  lemma MergeShaped(a: ReturnEffect, b: ReturnEffect, n: nat)
    requires ReturnShaped(a, n) && ReturnShaped(b, n)
    ensures ReturnShaped(ReturnMerge(a, b), n)
  {
    hide MergeIndices;
    if (a.BorrowsFrom? && b.BorrowsFrom?) || (a.BorrowsCarried? && b.BorrowsCarried?) {
      MergeIndicesUnites(a.indices, b.indices);
      var m := MergeIndices(a.indices, b.indices);
      forall k | 0 <= k < |m| ensures m[k] < n {
        assert m[k] in m;
      }
    }
  }

  /** Two exact lists of the same arguments are the same; lists of more arguments are above, unless
      one lists carried borrows only and the other has found a direct one. */
  lemma ListsRise(r: ReturnEffect, r': ReturnEffect, d: nat -> bool, c: nat -> bool, d': nat -> bool, c': nat -> bool)
    requires Lists(r, d, c) && Lists(r', d', c')
    requires forall i :: (d(i) ==> d'(i)) && (c(i) ==> c'(i))
    ensures RetRaised(r, r') || (r.BorrowsCarried? && r'.BorrowsFrom?)
    ensures RetRaised(r, r') ==> ReturnLeq(r, r')
  {
    if r.BorrowsFrom? { assert r.indices[0] in r.indices && d(r.indices[0]); }
    if r.BorrowsCarried? { assert r.indices[0] in r.indices && c(r.indices[0]); }
  }

  /** Both runs' return effects, compared. */
  lemma RetsRise(env: Env, up: Env, visits: seq<Visit>, visits': seq<Visit>)
    requires Raised(env, up) && VisitsLe(visits, visits')
    ensures var r, r' := Collected(env, visits).ret, Collected(up, visits').ret;
            && (RetRaised(r, r') || (r.BorrowsCarried? && r'.BorrowsFrom?))
            && (RetRaised(r, r') ==> ReturnLeq(r, r'))
  {
    hide Raised, VisitsLe, Returns, Lists, Collected, RetRaised, ReturnLeq;
    ReturnIsExact(env, visits);
    ReturnIsExact(up, visits');
    forall i: nat, direct: bool ensures Returns(env, visits, direct, i) ==> Returns(up, visits', direct, i) {
      if Returns(env, visits, direct, i) { ReturnsRise(env, up, visits, visits', direct, i); }
    }
    ListsRise(Collected(env, visits).ret, Collected(up, visits').ret,
      (i: nat) => Returns(env, visits, true, i), (i: nat) => Returns(env, visits, false, i),
      (i: nat) => Returns(up, visits', true, i), (i: nat) => Returns(up, visits', false, i));
  }

  /** With a raised table inference gives a raised summary, unless the result switches from carried
      to direct borrows. */
  lemma InferenceRises(env: Env, up: Env, s: Summary, s': Summary)
    requires Inferable(env.func) && Raised(env, up) && Infers(env, s) && Infers(up, s')
    ensures CalleeRaised(s, s') || (s.ret.BorrowsCarried? && s'.ret.BorrowsFrom?)
    ensures CalleeRaised(s, s') ==> Leq(s, s')
  {
    hide IsRun, Raised, VisitsLe, Collected, RetRaised, ArgLeq, ReturnLeq, PointersBefore, ArgsAreSlots;
    var states, reached, visits :| IsRun(env, states, reached, visits, s);
    var states', reached', visits' :| IsRun(up, states', reached', visits', s');
    RunsRise(env, up, states, reached, visits, s, states', reached', visits', s');
    SameFunction(env, up);
    GivesCollected(env, states, reached, visits, s);
    GivesCollected(up, states', reached', visits', s');
    forall i | 0 <= i < env.func.argCount ensures ArgLeq(s.args[i], s'.args[i]) {
      ArgsRise(env, up, visits, visits', i);
    }
    RetsRise(env, up, visits, visits');
  }

  lemma GivesCollected(env: Env, states: map<Label, TaintState>, reached: set<Label>, visits: seq<Visit>, s: Summary)
    requires IsRun(env, states, reached, visits, s)
    ensures s == Collected(env, visits) && |s.args| == env.func.argCount
  {}

  /** Inference gives one summary, whatever the order of its visits. */
  lemma InfersOne(env: Env, s: Summary, s': Summary)
    requires Inferable(env.func) && Infers(env, s) && Infers(env, s')
    ensures s == s'
  {
    hide Infers, Raised, ArgLeq, RetRaised, PointersBefore, ArgsAreSlots;
    RaisedSelf(env);
    InferenceRises(env, env, s, s');
    InferenceRises(env, env, s', s);
    InfersShaped(env, s);
    InfersShaped(env, s');
    forall i | 0 <= i < |s.args| ensures s.args[i] == s'.args[i] {
      ArgOrder(s.args[i], s'.args[i], s.args[i]);
    }
    RetsSame(s.ret, s'.ret, env.func.argCount);
  }

  lemma RetsSame(r: ReturnEffect, r': ReturnEffect, n: nat)
    requires RetRaised(r, r') && RetRaised(r', r) && ReturnShaped(r, n) && ReturnShaped(r', n)
    ensures r == r'
  {
    if r.BorrowsFrom? || r.BorrowsCarried? {
      if r != r' {
        StrictCount(r.indices, r'.indices);
        StrictCount(r'.indices, r.indices);
      }
    }
  }

  lemma InfersShaped(env: Env, s: Summary)
    requires Infers(env, s)
    ensures Shaped(s, env.func.argCount) && !s.ret.UnknownReturn? && Leq(DefaultFor(env.func.argCount), s)
  {
    hide IsRun, ArgLeq, ReturnLeq, Collected, Returns;
    var states, reached, visits :| IsRun(env, states, reached, visits, s);
    GivesCollected(env, states, reached, visits, s);
    CollectedShaped(env, visits);
    ReturnIsExact(env, visits);
    forall i | 0 <= i < env.func.argCount ensures ArgLeq(DefaultArg(), s.args[i]) {
      CollectedHas(env, visits, i);
    }
    IndependentIsLeast(s.ret);
  }

  /** Where the result type holds no reference nothing is borrowed. */
  lemma NothingReturns(env: Env, s: Summary)
    requires Infers(env, s) && !env.returnsBorrow
    ensures s.ret.Independent?
  {
    hide IsRun;
    var states, reached, visits :| IsRun(env, states, reached, visits, s);
    GivesCollected(env, states, reached, visits, s);
    ReturnIsExact(env, visits);
    ListsNothing(s.ret, (i: nat) => Returns(env, visits, true, i), (i: nat) => Returns(env, visits, false, i));
  }

  lemma ListsNothing(r: ReturnEffect, d: nat -> bool, c: nat -> bool)
    requires Lists(r, d, c)
    ensures r.Independent? || exists i :: d(i) || c(i)
  {
    if r.BorrowsFrom? { assert d(r.indices[0]) by { assert r.indices[0] in r.indices; } }
    if r.BorrowsCarried? { assert c(r.indices[0]) by { assert r.indices[0] in r.indices; } }
  }

  lemma IndependentIsLeast(r: ReturnEffect)
    ensures ReturnLeq(Independent, r)
  {}

  // ----- the inferred summary ------------------------------------------------------------

  lemma BlockVisited(env: Env, block: BasicBlock, st: TaintState) returns (visits: seq<Visit>)
    ensures MeetsBlock(env, block, st, visits)
    ensures forall k :: 0 <= k < |visits| ==> VisitsIn(env, block, st, visits[k])
  {
    hide StateAt, Le;
    var n := |block.insts|;
    var insts := seq(n, j requires 0 <= j < n => AtInst(block.insts[j], StateAt(env, block, st, j)));
    visits := insts + if block.terminator.Some? then [AtEnd(block.terminator.value, StateAt(env, block, st, n))]
      else [];
    forall j | 0 <= j < n ensures MeetsInst(env, block, st, j, visits) {
      assert visits[j] == AtInst(block.insts[j], StateAt(env, block, st, j));
    }
    if block.terminator.Some? { assert visits[n] == AtEnd(block.terminator.value, StateAt(env, block, st, n)); }
    forall k | 0 <= k < |visits| ensures VisitsIn(env, block, st, visits[k]) {
      SelfLe(StateAt(env, block, st, k));
      assert VisitsBlock(env, block, st, k, visits[k]);
    }
  }

  lemma {:induction false} RunVisited(env: Env, states: map<Label, TaintState>, reached: set<Label>, n: nat)
    returns (visits: seq<Visit>)
    requires reached <= states.Keys && n <= |env.func.blocks|
    ensures MeetsBlocks(env, states, reached, n, visits) && AllBelow(env, states, reached, visits)
  {
    hide MeetsBlock, VisitsIn;
    visits := [];
    if n > 0 {
      visits := RunVisited(env, states, reached, n - 1);
      var block := env.func.blocks[n - 1];
      if block.name in reached {
        var more := BlockVisited(env, block, states[block.name]);
        MoreVisits(env, states, reached, n - 1, visits, visits + more);
        MoreBelow(env, states, reached, n - 1, visits, visits + more);
        MetLater(env, block, states[block.name], visits, more);
        visits := visits + more;
      }
    }
  }

  lemma MetLater(env: Env, block: BasicBlock, st: TaintState, visits: seq<Visit>, more: seq<Visit>)
    requires MeetsBlock(env, block, st, more)
    ensures MeetsBlock(env, block, st, visits + more)
  {
    hide StateAt;
    assert forall v :: v in more ==> v in visits + more;
    forall j | 0 <= j < |block.insts| ensures MeetsInst(env, block, st, j, visits + more) {
      assert MeetsInst(env, block, st, j, more);
    }
  }

  lemma InfersSome(env: Env)
    requires Inferable(env.func)
    ensures exists s :: Infers(env, s)
  {
    hide AllBelow, MeetsBlocks, PointersBefore, ArgsAreSlots, Bounded, AtEntry, CallsHaveSources, LeastSolved,
      ForwardFixpoint, Invariant, Ascends;
    LeastStays(env);
    AscendsWithin(env, LeastInv(env));
    var states, reached := FixpointExists(env.func, TaintAnalysis(env), LeastInv(env), Rank(), 2 * |Universe(env)|);
    IsLeast(env, states, reached);
    SolvedKnows(env, states, reached);
    var visits := RunVisited(env, states, reached, |env.func.blocks|);
    assert IsRun(env, states, reached, visits, Collected(env, visits));
    assert Infers(env, Collected(env, visits));
  }

  /** The summary that effect inference gives. */
  ghost function Inferred(env: Env): (s: Summary)
    requires Inferable(env.func)
    ensures Infers(env, s)
  {
    InfersSome(env);
    var s :| Infers(env, s);
    s
  }

  // ----- what it depends on --------------------------------------------------------------

  lemma LeastDepends(env: Env, other: Env, states: map<Label, TaintState>, reached: set<Label>)
    requires AgreeOnCalls(env, other) && LeastSolved(env, states, reached)
    ensures LeastSolved(other, states, reached)
  {
    hide AgreeOnCalls, Solved, StatesLe;
    FuncsAgree(env, other);
    AgreeBack(env, other);
    FixpointDepends(env, other, states, reached);
    forall t, r | Solved(other, t, r) ensures StatesLe(states, t) {
      FixpointDepends(other, env, t, r);
    }
  }

  lemma AgreeBack(env: Env, other: Env)
    requires AgreeOnCalls(env, other)
    ensures AgreeOnCalls(other, env)
  {}

  lemma VisitsDepend(env: Env, other: Env, b: nat, st: TaintState, visits: seq<Visit>)
    requires AgreeOnCalls(env, other) && b < |env.func.blocks|
    ensures MeetsBlock(env, env.func.blocks[b], st, visits) ==> MeetsBlock(other, env.func.blocks[b], st, visits)
    ensures forall v :: VisitsIn(env, env.func.blocks[b], st, v) ==> VisitsIn(other, env.func.blocks[b], st, v)
  {
    hide AgreeOnCalls, Le;
    var block := env.func.blocks[b];
    BlockListed(env.func, b);
    forall j | 0 <= j <= |block.insts| ensures StateAt(env, block, st, j) == StateAt(other, block, st, j) {
      StatesDepend(env, other, block.insts[..j], st);
    }
    if MeetsBlock(env, block, st, visits) {
      forall j | 0 <= j < |block.insts| ensures MeetsInst(other, block, st, j, visits) {
        assert MeetsInst(env, block, st, j, visits);
      }
    }
    forall v | VisitsIn(env, block, st, v) ensures VisitsIn(other, block, st, v) {
      var j: nat :| VisitsBlock(env, block, st, j, v);
      assert VisitsBlock(other, block, st, j, v);
    }
  }

  lemma BelowListed(env: Env, states: map<Label, TaintState>, reached: set<Label>, v: Visit)
    requires reached <= states.Keys && VisitBelow(env, states, reached, v)
    ensures v.AtInst? ==> IsListed(env.func, v.id)
  {
    hide Le, StateAt;
    var b: nat :| b < |env.func.blocks| && env.func.blocks[b].name in reached
      && VisitsIn(env, env.func.blocks[b], states[env.func.blocks[b].name], v);
    BlockListed(env.func, b);
  }

  lemma InfersDepends(env: Env, other: Env, s: Summary)
    requires AgreeOnCalls(env, other) && Infers(env, s)
    ensures Infers(other, s)
  {
    hide AgreeOnCalls, LeastSolved, Collected, MeetsBlock, VisitsIn;
    var states: map<Label, TaintState>, reached: set<Label>, visits: seq<Visit> :|
      IsRun(env, states, reached, visits, s);
    FuncsAgree(env, other);
    LeastDepends(env, other, states, reached);
    forall b | 0 <= b < |env.func.blocks| && env.func.blocks[b].name in reached
      ensures MeetsBlock(other, env.func.blocks[b], states[env.func.blocks[b].name], visits)
    {
      VisitsDepend(env, other, b, states[env.func.blocks[b].name], visits);
    }
    forall k | 0 <= k < |visits| ensures VisitBelow(other, states, reached, visits[k]) {
      assert VisitBelow(env, states, reached, visits[k]);
      var b: nat :| b < |env.func.blocks| && env.func.blocks[b].name in reached
        && VisitsIn(env, env.func.blocks[b], states[env.func.blocks[b].name], visits[k]);
      VisitsDepend(env, other, b, states[env.func.blocks[b].name], visits);
    }
    forall k | 0 <= k < |visits| ensures visits[k].AtInst? ==> IsListed(env.func, visits[k].id) {
      BelowListed(env, states, reached, visits[k]);
    }
    SummaryDepends(env, other, visits);
    assert IsRun(other, states, reached, visits, s);
  }

  /** No table entry matters but those of the functions that are called. */
  lemma InferDependsOnCallees(env: Env, other: Env)
    requires Inferable(env.func) && AgreeOnCalls(env, other)
    ensures env.func == other.func && Inferred(env) == Inferred(other)
  {
    hide AgreeOnCalls, Infers, Inferable;
    FuncsAgree(env, other);
    InfersDepends(env, other, Inferred(env));
    InfersOne(other, Inferred(env), Inferred(other));
  }
}
