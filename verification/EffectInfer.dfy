/** Effect inference of one function, and what its result promises. */
module EffectInfer {
  import opened Wrappers
  import opened Mvir
  import opened Effects
  import opened ForwardDataflow
  import opened EffectTaints
  import opened EffectMeaning
  import opened EffectTransfer
  import opened EffectSoundness
  import opened EffectSummaries
  import opened EffectRun
  import opened EffectLeast

  ghost predicate MeetsEnd(env: Env, block: BasicBlock, st: TaintState, visits: seq<Visit>) {
    block.terminator.Some? ==> AtEnd(block.terminator.value, StateAt(env, block, st, |block.insts|)) in visits
  }

  /** Every position of the block, and its end, has been met. */
  ghost predicate MeetsBlock(env: Env, block: BasicBlock, st: TaintState, visits: seq<Visit>) {
    MeetsEnd(env, block, st, visits) && forall j :: 0 <= j < |block.insts| ==> MeetsInst(env, block, st, j, visits)
  }

  ghost predicate MeetsBlocks(env: Env, states: map<Label, TaintState>, reached: set<Label>, n: nat, visits: seq<Visit>)
    requires n <= |env.func.blocks| && reached <= states.Keys
  {
    forall b :: 0 <= b < n && env.func.blocks[b].name in reached ==>
      MeetsBlock(env, env.func.blocks[b], states[env.func.blocks[b].name], visits)
  }

  lemma MoreVisits(
      env: Env, states: map<Label, TaintState>, reached: set<Label>, n: nat, visits: seq<Visit>, more: seq<Visit>)
    requires n <= |env.func.blocks| && reached <= states.Keys
    requires MeetsBlocks(env, states, reached, n, visits) && visits <= more
    ensures MeetsBlocks(env, states, reached, n, more)
  {
    hide StateAt;
    assert forall v :: v in visits ==> v in more;
    forall b | 0 <= b < n && env.func.blocks[b].name in reached
      ensures MeetsBlock(env, env.func.blocks[b], states[env.func.blocks[b].name], more)
    {
      var block, st := env.func.blocks[b], states[env.func.blocks[b].name];
      assert MeetsBlock(env, block, st, visits);
      forall j | 0 <= j < |block.insts| ensures MeetsInst(env, block, st, j, more) {
        assert MeetsInst(env, block, st, j, visits);
      }
    }
  }

  /** The visit is of a listed position, or the end, of a block reached, in a state below the one the
      fixpoint gives there. */
  ghost predicate VisitsBlock(env: Env, block: BasicBlock, st: TaintState, j: nat, v: Visit) {
    && j <= |block.insts| && Le(v.st, StateAt(env, block, st, j))
    && match v
       case AtInst(id, _) => j < |block.insts| && id == block.insts[j]
       case AtEnd(term, _) => j == |block.insts| && block.terminator == Some(term)
  }

  ghost predicate VisitsIn(env: Env, block: BasicBlock, st: TaintState, v: Visit) {
    exists j: nat :: VisitsBlock(env, block, st, j, v)
  }

  ghost predicate VisitBelow(env: Env, states: map<Label, TaintState>, reached: set<Label>, v: Visit)
    requires reached <= states.Keys
  {
    exists b: nat :: b < |env.func.blocks| && env.func.blocks[b].name in reached
                     && VisitsIn(env, env.func.blocks[b], states[env.func.blocks[b].name], v)
  }

  ghost predicate AllBelow(env: Env, states: map<Label, TaintState>, reached: set<Label>, visits: seq<Visit>)
    requires reached <= states.Keys
  {
    forall k :: 0 <= k < |visits| ==> VisitBelow(env, states, reached, visits[k])
  }

  /** Goes over a block once, noting effects. */
  method RecordBlock(inference: EffectInference, block: BasicBlock, st: TaintState, ghost visits0: seq<Visit>)
    returns (ghost visits: seq<Visit>)
    requires Bounded(inference.env, st) && PointersBefore(inference.env.func)
    requires forall v :: v in block.insts ==> v < |inference.env.func.values|
    requires inference.summary == Collected(inference.env, visits0)
    modifies inference`summary
    ensures inference.summary == Collected(inference.env, visits) && visits0 <= visits
    ensures MeetsBlock(inference.env, block, st, visits)
    ensures forall k :: |visits0| <= k < |visits| ==> VisitsIn(inference.env, block, st, visits[k])
  {
    hide Transfer, Noted, NotedReturn, Bounded, PointersBefore, Le;
    var env := inference.env;
    var current := st;
    visits := visits0;
    assert block.insts[..0] == [];
    for j := 0 to |block.insts|
      invariant current == StateAt(env, block, st, j) && Bounded(env, current)
      invariant inference.summary == Collected(env, visits) && visits0 <= visits
      invariant forall k :: 0 <= k < j ==> MeetsInst(env, block, st, k, visits)
      invariant forall k :: |visits0| <= k < |visits| ==> VisitsIn(env, block, st, visits[k])
    {
      var id := block.insts[j];
      assert id in block.insts;
      ReadyFor(env, current);
      TransferInstsSnoc(TaintAnalysis(env), block.insts, st, j);
      ghost var before := visits;
      visits := visits + [AtInst(id, current)];
      assert visits[..|visits| - 1] == before;
      assert visits[|visits| - 1] == AtInst(id, current);
      SelfLe(current);
      assert VisitsBlock(env, block, st, j, AtInst(id, current));
      assert VisitsIn(env, block, st, visits[|visits| - 1]);
      forall k | 0 <= k <= j ensures MeetsInst(env, block, st, k, visits) {
        assert k < j ==> MeetsInst(env, block, st, k, before);
      }
      TransferBounded(env, id, current);
      current := inference.TransferInstruction(id, current);
    }
    ReadyFor(env, current);
    if block.terminator.Some? {
      ghost var before := visits;
      visits := visits + [AtEnd(block.terminator.value, current)];
      assert visits[..|visits| - 1] == before;
      assert visits[|visits| - 1] == AtEnd(block.terminator.value, current);
      SelfLe(current);
      assert VisitsBlock(env, block, st, |block.insts|, AtEnd(block.terminator.value, current));
      assert VisitsIn(env, block, st, visits[|visits| - 1]);
      forall k | 0 <= k < |block.insts| ensures MeetsInst(env, block, st, k, visits) {
        assert MeetsInst(env, block, st, k, before);
      }
      inference.TransferTerminator(block.terminator.value, current);
    }
  }

  lemma ReadyFor(env: Env, st: TaintState)
    requires Bounded(env, st)
    ensures Fits(st.direct, env.func.argCount) && AliasesDescend(st.aliases)
  {
    OfBounded(env, st.direct);
  }

  /** What effect inference may give: the taints' least fixpoint, and what is noted in visits that
      meet every position of every block reached with the states of the fixpoint, and otherwise go
      to such positions with states below. */
  ghost predicate Infers(env: Env, s: Summary) {
    exists states, reached, visits :: IsRun(env, states, reached, visits, s)
  }

  ghost predicate IsRun(env: Env, states: map<Label, TaintState>, reached: set<Label>, visits: seq<Visit>, s: Summary) {
    && LeastSolved(env, states, reached) && reached <= states.Keys
    && MeetsBlocks(env, states, reached, |env.func.blocks|, visits) && AllBelow(env, states, reached, visits)
    && s == Collected(env, visits)
  }

  /** A function that the inference is made for. */
  ghost predicate Inferable(func: Function) {
    WellFormed(func) && PointersBefore(func) && ArgsAreSlots(func)
  }

  /** Solves the taints and notes what every instruction and terminator does. */
  method Infer(env: Env) returns (summary: Summary)
    requires Inferable(env.func)
    ensures Infers(env, summary)
  {
    hide Bounded, Solved, PointersBefore, Collected, VisitsIn, LeastSolved, ArgsAreSlots;
    var states, sweeps, reached := SolveTaints(env);
    SolvedKnows(env, states, reached);
    var inference := new EffectInference(env);
    ghost var visits: seq<Visit> := [];
    NothingNoted(env);
    for b := 0 to |env.func.blocks|
      invariant inference.summary == Collected(env, visits)
      invariant MeetsBlocks(env, states, reached, b, visits) && AllBelow(env, states, reached, visits)
    {
      var block := env.func.blocks[b];
      if block.name in reached {
        ghost var before := visits;
        visits := RecordBlock(inference, block, states[block.name], visits);
        MoreVisits(env, states, reached, b, before, visits);
        MoreBelow(env, states, reached, b, before, visits);
      }
    }
    summary := inference.summary;
    assert IsRun(env, states, reached, visits, summary);
  }

  lemma MoreBelow(
      env: Env, states: map<Label, TaintState>, reached: set<Label>, b: nat, visits: seq<Visit>, more: seq<Visit>)
    requires reached <= states.Keys && AllBelow(env, states, reached, visits) && visits <= more
    requires b < |env.func.blocks| && env.func.blocks[b].name in reached
    requires forall k :: |visits| <= k < |more| ==>
      VisitsIn(env, env.func.blocks[b], states[env.func.blocks[b].name], more[k])
    ensures AllBelow(env, states, reached, more)
  {
    hide VisitsIn;
    forall k | 0 <= k < |more| ensures VisitBelow(env, states, reached, more[k]) {
      if k < |visits| {
        assert VisitBelow(env, states, reached, visits[k]);
      }
    }
  }

  lemma NothingNoted(env: Env)
    ensures Collected(env, []) == DefaultFor(env.func.argCount)
  {}

  lemma SolvedKnows(env: Env, states: map<Label, TaintState>, reached: set<Label>)
    requires LeastSolved(env, states, reached)
    ensures reached <= states.Keys
  {}

  // ----- what it promises ----------------------------------------------------------------

  /** Nothing is missed: for every walk from the first block and every argument, what the
      instruction it leads to does to the argument, by the taints of the walk, is in the summary. */
  lemma NoEffectMissed(env: Env, s: Summary, path: seq<Label>, b: nat, j: nat, i: nat)
    requires Infers(env, s) && Inferable(env.func) && i < env.func.argCount
    requires IsPath(env.func, path) && IsEntry(env.func, path[0])
    requires b < |env.func.blocks| && env.func.blocks[b].name == path[|path| - 1] && j < |env.func.blocks[b].insts|
    ensures |s.args| == env.func.argCount
    ensures var block := env.func.blocks[b];
            forall e :: OnArgument(env, block.insts[j], StateAt(env, block, PathTaints(env, path), j), i, e) ==>
              ArgLeq(e, s.args[i])
  {
    hide EffectOn, Collected, Solved, StateAt, OnArgument, ArgLeq;
    var st := StateAt(env, env.func.blocks[b], PathTaints(env, path), j);
    var id := env.func.blocks[b].insts[j];
    DoesIsJoin(env, AtInst(id, st), i);
    forall e ensures ArgLeq(e, EffectOn(env, id, st, i)) && ArgLeq(EffectOn(env, id, st, i), s.args[i]) ==>
        ArgLeq(e, s.args[i])
    {
      ArgOrder(e, EffectOn(env, id, st, i), s.args[i]);
    }
    forall e | OnArgument(env, id, st, i, e) ensures VisitHas(env, AtInst(id, st), i, e) {}
    var states, reached, visits :| IsRun(env, states, reached, visits, s);
    forall c, k | 0 <= c < |env.func.blocks| && env.func.blocks[c].name in reached
      && 0 <= k < |env.func.blocks[c].insts|
      ensures MeetsInst(env, env.func.blocks[c], states[env.func.blocks[c].name], k, visits)
    {
      assert MeetsBlock(env, env.func.blocks[c], states[env.func.blocks[c].name], visits);
    }
    EffectsFound(env, states, reached, visits, path, b, j, i);
  }

  /** At position `j` of a block entered with `st`, or at its end, something is done to argument `i`. */
  ghost predicate PointHas(env: Env, block: BasicBlock, st: TaintState, j: nat, i: nat, e: ArgEffect) {
    && j <= |block.insts|
    && if j < |block.insts| then OnArgument(env, block.insts[j], StateAt(env, block, st, j), i, e)
       else block.terminator.Some? && GivesAway(env, block.terminator.value, StateAt(env, block, st, j), i, e)
  }

  ghost predicate BlockHas(env: Env, block: BasicBlock, st: TaintState, i: nat, e: ArgEffect) {
    exists j: nat :: PointHas(env, block, st, j, i, e)
  }

  /** At some place of some block reached. */
  ghost predicate SolutionHas(env: Env, states: map<Label, TaintState>, reached: set<Label>, i: nat, e: ArgEffect)
    requires reached <= states.Keys
  {
    exists b: nat :: b < |env.func.blocks| && env.func.blocks[b].name in reached
                     && BlockHas(env, env.func.blocks[b], states[env.func.blocks[b].name], i, e)
  }

  ghost predicate JoinsAll(env: Env, states: map<Label, TaintState>, reached: set<Label>, i: nat, entry: ArgEffect) {
    && LeastSolved(env, states, reached) && reached <= states.Keys
    && IsJoin(DefaultArg(), (e: ArgEffect) => SolutionHas(env, states, reached, i, e), entry)
  }

  lemma VisitedHas(
      env: Env, states: map<Label, TaintState>, reached: set<Label>, visits: seq<Visit>, i: nat, e: ArgEffect)
    requires reached <= states.Keys && MeetsBlocks(env, states, reached, |env.func.blocks|, visits)
    requires SolutionHas(env, states, reached, i, e)
    ensures SomeVisitHas(env, visits, i, e)
  {
    hide StateAt, OnArgument, GivesAway;
    var b: nat :| b < |env.func.blocks| && env.func.blocks[b].name in reached
                  && BlockHas(env, env.func.blocks[b], states[env.func.blocks[b].name], i, e);
    var block, st := env.func.blocks[b], states[env.func.blocks[b].name];
    var j: nat :| PointHas(env, block, st, j, i, e);
    assert MeetsBlock(env, block, st, visits);
    var v := if j < |block.insts| then AtInst(block.insts[j], StateAt(env, block, st, j))
             else AtEnd(block.terminator.value, StateAt(env, block, st, j));
    assert j < |block.insts| ==> MeetsInst(env, block, st, j, visits);
    var k :| 0 <= k < |visits| && visits[k] == v;
    assert VisitHas(env, visits[k], i, e);
  }

  lemma HasMore(env: Env, s: TaintState, t: TaintState, i: nat, e: ArgEffect)
    requires s.direct <= t.direct
    ensures forall id :: OnArgument(env, id, s, i, e) ==> OnArgument(env, id, t, i, e)
    ensures forall term :: GivesAway(env, term, s, i, e) ==> GivesAway(env, term, t, i, e)
  {
    hide Inflicts;
  }

  lemma VisitSolved(
      env: Env, states: map<Label, TaintState>, reached: set<Label>, visits: seq<Visit>, i: nat, e: ArgEffect)
    requires reached <= states.Keys && AllBelow(env, states, reached, visits) && SomeVisitHas(env, visits, i, e)
    ensures SolutionHas(env, states, reached, i, e)
  {
    hide StateAt, OnArgument, GivesAway;
    var k :| 0 <= k < |visits| && VisitHas(env, visits[k], i, e);
    assert VisitBelow(env, states, reached, visits[k]);
    var b: nat :| b < |env.func.blocks| && env.func.blocks[b].name in reached
                  && VisitsIn(env, env.func.blocks[b], states[env.func.blocks[b].name], visits[k]);
    var block, st := env.func.blocks[b], states[env.func.blocks[b].name];
    var j: nat :| VisitsBlock(env, block, st, j, visits[k]);
    HasMore(env, visits[k].st, StateAt(env, block, st, j), i, e);
    assert PointHas(env, block, st, j, i, e);
  }

  /** Nothing is made up either: an entry is the least effect above what is done to the argument
      anywhere in a block reached, by the least taints. */
  lemma EntryIsJoin(env: Env, s: Summary, i: nat)
    requires Infers(env, s) && i < env.func.argCount
    ensures |s.args| == env.func.argCount
    ensures exists states, reached :: JoinsAll(env, states, reached, i, s.args[i])
  {
    hide MeetsBlocks, AllBelow, LeastSolved, Collected, SolutionHas, SomeVisitHas, ArgLeq;
    var states, reached, visits :| IsRun(env, states, reached, visits, s);
    CollectedIsJoin(env, visits, i);
    forall e ensures SomeVisitHas(env, visits, i, e) <==> SolutionHas(env, states, reached, i, e) {
      if SomeVisitHas(env, visits, i, e) { VisitSolved(env, states, reached, visits, i, e); }
      if SolutionHas(env, states, reached, i, e) { VisitedHas(env, states, reached, visits, i, e); }
    }
    assert JoinsAll(env, states, reached, i, s.args[i]);
  }

  /** A returned value that stems from an argument itself, on some walk, makes the summary say
      that the result borrows from that argument; one that stems from what an argument carries
      makes it say so too, unless it says that the result borrows from some argument itself. */
  lemma NoReturnMissed(env: Env, s: Summary, path: seq<Label>, b: nat, op: Operand, direct: bool, i: nat)
    requires Infers(env, s) && Inferable(env.func) && i < env.func.argCount && env.returnsBorrow
    requires IsPath(env.func, path) && IsEntry(env.func, path[0])
    requires b < |env.func.blocks| && env.func.blocks[b].name == path[|path| - 1]
    requires env.func.blocks[b].terminator == Some(Ret(Some(op)))
    requires var block := env.func.blocks[b];
             (if direct then Direct(i) else Carried(i))
             in OfOp(StateAt(env, block, PathTaints(env, path), |block.insts|).direct, op)
    ensures s.ret.BorrowsFrom? || (!direct && s.ret.BorrowsCarried?)
    ensures s.ret.BorrowsFrom? == direct ==> i in s.ret.indices
  {
    hide Collected, Solved, Le, CallsHaveSources, PathTaints, AllBelow, PointersBefore, MeetsInst, Raised;
    var states, reached, visits :| IsRun(env, states, reached, visits, s);
    var block := env.func.blocks[b];
    WalkCovered(env, states, reached, path);
    RaisedSelf(env);
    InstsRise(env, env, block.insts[..|block.insts|], PathTaints(env, path), states[block.name]);
    var t := StateAt(env, block, states[block.name], |block.insts|);
    TaintRises(StateAt(env, block, PathTaints(env, path), |block.insts|), t, op, if direct then Direct(i)
      else Carried(i));
    assert MeetsBlock(env, block, states[block.name], visits);
    var k :| 0 <= k < |visits| && visits[k] == AtEnd(Ret(Some(op)), t);
    assert ReturnsAt(env, visits[k], direct, i);
    ReturnIsExact(env, visits);
    ListsBoth(s.ret, (n: nat) => Returns(env, visits, true, n), (n: nat) => Returns(env, visits, false, n), i);
  }

  lemma ListsBoth(ret: ReturnEffect, d: nat -> bool, c: nat -> bool, i: nat)
    requires Lists(ret, d, c)
    ensures d(i) ==> ret.BorrowsFrom? && i in ret.indices
    ensures c(i) ==> ret.BorrowsFrom? || (ret.BorrowsCarried? && i in ret.indices)
  {}

  lemma TaintRises(s: TaintState, t: TaintState, op: Operand, x: Taint)
    requires Le(s, t) && x in OfOp(s.direct, op)
    ensures x in OfOp(t.direct, op)
  {
    OfRises(s.direct, t.direct);
  }

  /** An alias is known in the block of the instruction that makes it, and not beyond: a store
      through a pointer made in another block is put down to the pointer, not to its base. */
  lemma {:induction false} AliasesEndWithBlock(
      env: Env, states: map<Label, TaintState>, reached: set<Label>, block: BasicBlock, j: nat, p: ValueId)
    requires Solved(env, states, reached) && block.name in states && j <= |block.insts|
    requires p !in block.insts[..j]
    ensures Root(StateAt(env, block, states[block.name], j).aliases, p) == Value(p)
  {
    hide Transfer, Solved;
    NoAliases(env, states, reached, block.name);
    AliasesAreOf(env, block.insts[..j], states[block.name], p);
  }

  lemma NoAliases(env: Env, states: map<Label, TaintState>, reached: set<Label>, l: Label)
    requires Solved(env, states, reached) && l in states
    ensures states[l].aliases == map[]
  {
    assert AtEntry(env, l, states[l]);
  }

  lemma {:induction false} AliasesAreOf(env: Env, insts: seq<ValueId>, st: TaintState, p: ValueId)
    requires p !in st.aliases && p !in insts
    ensures p !in TransferInsts(TaintAnalysis(env), insts, st).aliases
    decreases |insts|
  {
    hide Transfer;
    if insts != [] {
      OneAlias(env, insts[0], st, p);
      AliasesAreOf(env, insts[1..], Transfer(env, insts[0], st), p);
    }
  }

  lemma OneAlias(env: Env, id: ValueId, st: TaintState, p: ValueId)
    requires p !in st.aliases && p != id
    ensures p !in Transfer(env, id, st).aliases
  {
    hide OfOp, OfAll, Returned;
  }
}
