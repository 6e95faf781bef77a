/** The summary that effect inference computes: taints to their fixpoint, and what is noted. */
module EffectSummaries {
  import opened Wrappers
  import opened Mvir
  import opened Effects
  import opened ForwardDataflow
  import opened EffectTaints
  import opened EffectMeaning
  import opened EffectSoundness

  // ----- along a walk --------------------------------------------------------------------

  function Cleared(st: TaintState): TaintState {
    st.(aliases := map[])
  }

  /** The taints on entering the last block of a walk from the first. */
  ghost function PathTaints(env: Env, path: seq<Label>): TaintState
    requires IsPath(env.func, path)
    decreases |path|
  {
    if |path| == 1 then EntryTaints(env.func.argCount)
    else
      var init := path[..|path| - 1];
      assert IsPath(env.func, init);
      assert Edge(env.func, path[|path| - 2], path[|path| - 1]);
      Cleared(TransferInsts(TaintAnalysis(env), BlockNamed(env.func, init[|init| - 1]).insts, PathTaints(env, init)))
  }

  /** The arguments are slots of their own. */
  ghost predicate ArgsAreSlots(func: Function) {
    forall v :: 0 <= v < func.argCount && v < |func.values| ==> func.values[v].Alloca?
  }

  /** What every state at the entry of a block has: no aliases, and at the first block the
      arguments' own taints. */
  ghost predicate AtEntry(env: Env, l: Label, st: TaintState) {
    st.aliases == map[] && (IsEntry(env.func, l) ==> Le(EntryTaints(env.func.argCount), st))
  }

  ghost predicate Solved(env: Env, states: map<Label, TaintState>, reached: set<Label>) {
    && ForwardFixpoint(env.func, TaintAnalysis(env), states, reached)
    && forall l :: l in states ==> AtEntry(env, l, states[l])
  }

  lemma {:induction false} InstsRise(env: Env, up: Env, insts: seq<ValueId>, s: TaintState, t: TaintState)
    requires Le(s, t) && CallsHaveSources(env, s) && Raised(env, up)
    ensures Le(TransferInsts(TaintAnalysis(env), insts, s), TransferInsts(TaintAnalysis(up), insts, t))
    ensures CallsHaveSources(env, TransferInsts(TaintAnalysis(env), insts, s))
    decreases |insts|
  {
    hide Le, CallsHaveSources, Transfer, Raised;
    if insts != [] {
      TransferRises(env, up, insts[0], s, t);
      TransferKeepsSources(env, insts[0], s);
      InstsRise(env, up, insts[1..], Transfer(env, insts[0], s), Transfer(up, insts[0], t));
    }
  }

  lemma EntryHasSources(env: Env)
    requires ArgsAreSlots(env.func)
    ensures CallsHaveSources(env, EntryTaints(env.func.argCount))
  {
    var st := EntryTaints(env.func.argCount);
    forall v | 0 <= v < |env.func.values| && env.func.values[v].CallDirect? ensures HasSource(env, st, v) {
      assert Of(st.direct, v) == {};
    }
  }

  lemma ClearedHasSources(env: Env, st: TaintState)
    requires CallsHaveSources(env, st)
    ensures CallsHaveSources(env, Cleared(st))
  {
    var t := Cleared(st);
    forall v | 0 <= v < |env.func.values| && env.func.values[v].CallDirect? ensures HasSource(env, t, v) {
      assert HasSource(env, st, v);
      var call := env.func.values[v];
      if call.callee in env.table {
        var ret := env.table[call.callee].ret;
        ReturnedRises(ret, ret, st, t, call.args);
        ReturnedRises(ret, ret, t, st, call.args);
      }
    }
  }

  /** What flows along an edge of the fixpoint is in the target's state. */
  lemma EdgeCovers(
      env: Env, up: Env, states: map<Label, TaintState>, reached: set<Label>, b: BasicBlock, y: Label, s: TaintState)
    requires Raised(env, up) && Solved(up, states, reached)
    requires b in up.func.blocks && b.name in reached && Edge(up.func, b.name, y)
    requires Le(s, states[b.name]) && CallsHaveSources(env, s)
    ensures y in reached
    ensures Le(Cleared(TransferInsts(TaintAnalysis(env), b.insts, s)), states[y])
  {
    hide Transfer, Raised;
    var a := TaintAnalysis(up);
    StableEdge(up.func, a, states, reached, b, y);
    InstsRise(env, up, b.insts, s, states[b.name]);
    var t: nat :| a.merge(states[y], Flow(a, b, y, states[b.name]), t) == states[y];
    var flow := Flow(a, b, y, states[b.name]);
    assert flow == TransferInsts(a, b.insts, states[b.name]);
    assert MergeTaints(states[y], flow) == states[y];
    assert flow.direct <= states[y].direct && flow.carried <= states[y].carried;
    assert AtEntry(up, y, states[y]);
  }

  lemma WalkStarts(env: Env, states: map<Label, TaintState>, reached: set<Label>, path: seq<Label>)
    requires Solved(env, states, reached) && ArgsAreSlots(env.func)
    requires IsPath(env.func, path) && |path| == 1 && IsEntry(env.func, path[0])
    ensures path[0] in reached && path[0] in states && Le(PathTaints(env, path), states[path[0]])
    ensures CallsHaveSources(env, PathTaints(env, path))
  {
    hide Le, CallsHaveSources;
    EntryHasSources(env);
    assert AtEntry(env, path[0], states[path[0]]);
  }

  lemma WalkSteps(env: Env, states: map<Label, TaintState>, reached: set<Label>, path: seq<Label>)
    requires Solved(env, states, reached) && IsPath(env.func, path) && |path| > 1
    requires var x := path[|path| - 2]; var init := path[..|path| - 1];
             && x in reached && x in states && IsPath(env.func, init)
             && Le(PathTaints(env, init), states[x]) && CallsHaveSources(env, PathTaints(env, init))
    ensures var y := path[|path| - 1];
            y in reached && y in states && Le(PathTaints(env, path), states[y])
              && CallsHaveSources(env, PathTaints(env, path))
  {
    hide Le, CallsHaveSources, AtEntry, Cleared;
    var init := path[..|path| - 1];
    var before := PathTaints(env, init);
    assert Edge(env.func, path[|path| - 2], path[|path| - 1]);
    var b := BlockNamed(env.func, init[|init| - 1]);
    RaisedSelf(env);
    EdgeCovers(env, env, states, reached, b, path[|path| - 1], before);
    SelfLe(before);
    InstsRise(env, env, b.insts, before, before);
    ClearedHasSources(env, TransferInsts(TaintAnalysis(env), b.insts, before));
  }

  lemma SelfLe(st: TaintState)
    ensures Le(st, st)
  {}

  /** The fixpoint has all taints of every walk. */
  lemma {:induction false} WalkCovered(env: Env, states: map<Label, TaintState>, reached: set<Label>, path: seq<Label>)
    requires Solved(env, states, reached) && ArgsAreSlots(env.func)
    requires IsPath(env.func, path) && IsEntry(env.func, path[0])
    ensures var y := path[|path| - 1]; y in reached && y in states && Le(PathTaints(env, path), states[y])
    ensures CallsHaveSources(env, PathTaints(env, path))
    decreases |path|
  {
    hide Le, CallsHaveSources, Solved, PathTaints;
    if |path| == 1 {
      WalkStarts(env, states, reached, path);
    } else {
      assert IsPath(env.func, path[..|path| - 1]);
      WalkCovered(env, states, reached, path[..|path| - 1]);
      WalkSteps(env, states, reached, path);
    }
  }

  // ----- what is noted -------------------------------------------------------------------

  /** An instruction or a terminator met with a state. */
  datatype Visit = AtInst(id: ValueId, st: TaintState) | AtEnd(term: Terminator, st: TaintState)

  function NotedVisit(env: Env, v: Visit, s: Summary): Summary {
    match v
    case AtInst(id, st) => Noted(env, id, st, s)
    case AtEnd(term, st) => NotedReturn(env, term, st, s)
  }

  function Collected(env: Env, visits: seq<Visit>): (s: Summary)
    ensures |s.args| == env.func.argCount
  {
    if visits == [] then DefaultFor(env.func.argCount)
    else NotedVisit(env, visits[|visits| - 1], Collected(env, visits[..|visits| - 1]))
  }

  /** The taints of what a visited return gives back. */
  function ReturnedBy(env: Env, v: Visit): set<Taint> {
    if v.AtEnd? && v.term.Ret? && v.term.value.Some?
      && env.returnsBorrow then OfOp(v.st.direct, v.term.value.value) else {}
  }

  /** What a visit does to argument `i`. */
  function Does(env: Env, v: Visit, i: nat): ArgEffect {
    match v
    case AtInst(id, st) => EffectOn(env, id, st, i)
    case AtEnd(_, _) => On(ReturnedBy(env, v), i, NoEffect().(ownership := Consume))
  }

  lemma NotedDoes(env: Env, v: Visit, s: Summary, i: nat)
    requires i < |s.args|
    ensures |NotedVisit(env, v, s).args| == |s.args|
      && NotedVisit(env, v, s).args[i] == ArgMerge(s.args[i], Does(env, v, i))
  {
    hide ArgMerge, EffectOn, OfOp, ReturnEffectOf;
    MergeLaws(s.args[i], NoEffect(), NoEffect());
  }

  /** The summary has what every visit does, and starts from the default. */
  lemma {:induction false} CollectedHas(env: Env, visits: seq<Visit>, i: nat)
    requires i < env.func.argCount
    ensures ArgLeq(DefaultArg(), Collected(env, visits).args[i])
    ensures forall k :: 0 <= k < |visits| ==> ArgLeq(Does(env, visits[k], i), Collected(env, visits).args[i])
    decreases |visits|
  {
    hide ArgLeq, ArgMerge, Does, NotedVisit;
    if visits == [] {
      ArgOrder(DefaultArg(), DefaultArg(), DefaultArg());
    } else {
      var init, last := visits[..|visits| - 1], visits[|visits| - 1];
      var before, after := Collected(env, init).args[i], Collected(env, visits).args[i];
      NotedDoes(env, last, Collected(env, init), i);
      CollectedHas(env, init, i);
      ArgMergeIsJoin(before, Does(env, last, i), after);
      ArgOrder(DefaultArg(), before, after);
      forall k | 0 <= k < |visits| ensures ArgLeq(Does(env, visits[k], i), after) {
        if k < |init| {
          assert ArgLeq(Does(env, init[k], i), before);
          ArgOrder(Does(env, visits[k], i), before, after);
        }
      }
    }
  }

  /** It has nothing else: what bounds the default and every visit bounds the summary. */
  lemma {:induction false} CollectedBelow(env: Env, visits: seq<Visit>, i: nat, bound: ArgEffect)
    requires i < env.func.argCount && ArgLeq(DefaultArg(), bound)
    requires forall k :: 0 <= k < |visits| ==> ArgLeq(Does(env, visits[k], i), bound)
    ensures ArgLeq(Collected(env, visits).args[i], bound)
    decreases |visits|
  {
    hide ArgLeq, ArgMerge, Does, NotedVisit;
    if visits != [] {
      var init, last := visits[..|visits| - 1], visits[|visits| - 1];
      CollectedBelow(env, init, i, bound);
      NotedDoes(env, last, Collected(env, init), i);
      ArgMergeIsJoin(Collected(env, init).args[i], Does(env, last, i), bound);
    }
  }

  /** What a visit has on argument `i`, by the kind of instruction and its operands. */
  ghost predicate VisitHas(env: Env, v: Visit, i: nat, e: ArgEffect) {
    match v
    case AtInst(id, st) => OnArgument(env, id, st, i, e)
    case AtEnd(term, st) => GivesAway(env, term, st, i, e)
  }

  ghost predicate SomeVisitHas(env: Env, visits: seq<Visit>, i: nat, e: ArgEffect) {
    exists k :: 0 <= k < |visits| && VisitHas(env, visits[k], i, e)
  }

  lemma DoesIsJoin(env: Env, v: Visit, i: nat)
    ensures forall e :: VisitHas(env, v, i, e) ==> ArgLeq(e, Does(env, v, i))
    ensures forall c :: (forall e :: VisitHas(env, v, i, e) ==> ArgLeq(e, c)) ==> ArgLeq(Does(env, v, i), c)
  {
    hide ArgMerge, EffectOn, OnArgument, ArgLeq;
    var none := NoEffect();
    var es := (e: ArgEffect) => VisitHas(env, v, i, e);
    forall c ensures ArgLeq(none, c) { NothingBelow(c); }
    MergeLaws(Does(env, v, i), none, none);
    match v
    case AtInst(id, st) => {
      if id < |env.func.values| {
        EffectIsJoin(env, id, st, i, none);
        var all := EffectsOn(env, id, st, i);
        forall e ensures VisitHas(env, v, i, e) <==> all(e) {}
      } else {
        NothingOutside(env, id, st, i);
      }
    }
    case AtEnd(term, st) => {
      var x := none.(ownership := Consume);
      if env.returnsBorrow && term.Ret? && term.value.Some? {
        OnIs(st.direct, term.value.value, i, x);
        OneJoin(none, Has(st.direct, term.value.value, Direct(i)), x, es);
      }
    }
  }

  lemma NothingOutside(env: Env, id: ValueId, st: TaintState, i: nat)
    requires id >= |env.func.values|
    ensures EffectOn(env, id, st, i) == NoEffect() && forall e :: !OnArgument(env, id, st, i, e)
  {}

  /** An entry is the least effect above the default and above all that visited instructions and
      returns have on values that stem from the argument. */
  lemma CollectedIsJoin(env: Env, visits: seq<Visit>, i: nat)
    requires i < env.func.argCount
    ensures IsJoin(DefaultArg(), (e: ArgEffect) => SomeVisitHas(env, visits, i, e), Collected(env, visits).args[i])
  {
    hide ArgLeq, Does, VisitHas;
    var entry := Collected(env, visits).args[i];
    CollectedHas(env, visits, i);
    forall e | SomeVisitHas(env, visits, i, e) ensures ArgLeq(e, entry) {
      var k :| 0 <= k < |visits| && VisitHas(env, visits[k], i, e);
      DoesIsJoin(env, visits[k], i);
      ArgOrder(e, Does(env, visits[k], i), entry);
    }
    forall c | ArgLeq(DefaultArg(), c) && forall e :: SomeVisitHas(env, visits, i, e) ==> ArgLeq(e, c)
      ensures ArgLeq(entry, c)
    {
      forall k | 0 <= k < |visits| ensures ArgLeq(Does(env, visits[k], i), c) {
        DoesIsJoin(env, visits[k], i);
        forall e | VisitHas(env, visits[k], i, e) ensures ArgLeq(e, c) { assert SomeVisitHas(env, visits, i, e); }
      }
      CollectedBelow(env, visits, i, c);
    }
  }

  /** The state in which the fixpoint meets position `j` of a block. */
  function StateAt(env: Env, block: BasicBlock, st: TaintState, j: nat): TaintState
    requires j <= |block.insts|
  {
    TransferInsts(TaintAnalysis(env), block.insts[..j], st)
  }

  /** Every position of every block reached has been met with the solved state. */
  ghost predicate MeetsAll(env: Env, states: map<Label, TaintState>, reached: set<Label>, visits: seq<Visit>)
    requires reached <= states.Keys
  {
    forall b, j ::
      0 <= b < |env.func.blocks| && env.func.blocks[b].name in reached && 0 <= j < |env.func.blocks[b].insts| ==>
      MeetsInst(env, env.func.blocks[b], states[env.func.blocks[b].name], j, visits)
  }

  ghost predicate MeetsInst(env: Env, block: BasicBlock, st: TaintState, j: nat, visits: seq<Visit>)
    requires j < |block.insts|
  {
    AtInst(block.insts[j], StateAt(env, block, st, j)) in visits
  }

  /** For every walk to an instruction: what it does to an argument, by the taints of the walk,
      is in the summary, whatever else has been noted. */
  lemma EffectsFound(
      env: Env, states: map<Label, TaintState>, reached: set<Label>, visits: seq<Visit>,
      path: seq<Label>, b: nat, j: nat, i: nat)
    requires Solved(env, states, reached) && ArgsAreSlots(env.func) && MeetsAll(env, states, reached, visits)
    requires IsPath(env.func, path) && IsEntry(env.func, path[0])
    requires b < |env.func.blocks| && env.func.blocks[b].name == path[|path| - 1] && j < |env.func.blocks[b].insts|
    requires i < env.func.argCount
    ensures var block := env.func.blocks[b];
            ArgLeq(EffectOn(env, block.insts[j], StateAt(env, block, PathTaints(env, path), j), i),
                   Collected(env, visits).args[i])
  {
    hide ArgLeq, EffectOn, Le, CallsHaveSources, Collected;
    var block := env.func.blocks[b];
    var id := block.insts[j];
    WalkCovered(env, states, reached, path);
    RaisedSelf(env);
    InstsRise(env, env, block.insts[..j], PathTaints(env, path), states[block.name]);
    var s, t := StateAt(env, block, PathTaints(env, path), j), StateAt(env, block, states[block.name], j);
    EffectRises(env, env, id, s, t, i);
    assert MeetsInst(env, block, states[block.name], j, visits);
    var k :| 0 <= k < |visits| && visits[k] == AtInst(id, t);
    CollectedHas(env, visits, i);
    assert Does(env, visits[k], i) == EffectOn(env, id, t, i);
    ArgOrder(EffectOn(env, id, s, i), EffectOn(env, id, t, i), Collected(env, visits).args[i]);
  }
}
