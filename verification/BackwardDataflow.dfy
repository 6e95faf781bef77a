/** The backward sweep-to-fixpoint engine.  A block's state is the state at its end; an
    analysis record's `entry` is what `init_entry_state` makes of the last block's state. */
module BackwardDataflow {
  import opened Wrappers
  import opened Mvir
  import opened Dominators
  import opened ForwardDataflow

  function TransferInstsBack<S>(a: Analysis<S>, insts: seq<ValueId>, s: S): S {
    if insts == [] then s else a.inst(insts[0], TransferInstsBack(a, insts[1..], s))
  }

  /** The state at the start of a block whose end has state `s`. */
  function TransferBack<S>(a: Analysis<S>, block: BasicBlock, s: S): S {
    TransferInstsBack(a, block.insts, match block.terminator case Some(t) => a.term(t, s) case None => s)
  }

  predicate IsExit(func: Function, l: Label) {
    |func.blocks| > 0 && func.blocks[|func.blocks| - 1].name == l
  }

  /** `inv` holds of every initial state and survives what any block sends to a predecessor. */
  ghost predicate BackInvariant<S(!new)>(func: Function, a: Analysis<S>, inv: (Label, S) -> bool) {
    && (forall l :: inv(l, if IsExit(func, l) then a.entry else a.bottom))
    && (forall i, x, s, d, t: nat ::
          0 <= i < |func.blocks| && Edge(func, x, func.blocks[i].name)
          && inv(func.blocks[i].name, s) && inv(x, d)
          ==> inv(x, a.merge(d, TransferBack(a, func.blocks[i], s), t)))
  }

  ghost predicate BackStable<S(!new)>(a: Analysis<S>, block: BasicBlock, x: Label, states: map<Label, S>)
    requires block.name in states && x in states
  {
    exists t: nat :: a.merge(states[x], TransferBack(a, block, states[block.name]), t) == states[x]
  }

  ghost predicate BackBlockStable<S(!new)>(
      a: Analysis<S>, block: BasicBlock, ps: seq<Label>, states: map<Label, S>)
  {
    block.name in states && forall x :: x in ps ==> x in states && BackStable(a, block, x, states)
  }

  /** No block can change the state of a predecessor any more. */
  ghost predicate BackwardFixpoint<S(!new)>(func: Function, a: Analysis<S>, preds: EdgeMap, states: map<Label, S>) {
    && states.Keys == Labels(func)
    && IsPreds(func, preds)
    && forall i :: 0 <= i < |func.blocks| ==> BackBlockStable(a, func.blocks[i], preds[func.blocks[i].name], states)
  }

  method ApplyBlockBack<S>(a: Analysis<S>, block: BasicBlock, s: S) returns (out: S)
    ensures out == TransferBack(a, block, s)
  {
    out := s;
    if block.terminator.Some? {
      out := a.term(block.terminator.value, out);
    }
    ghost var after := out;
    var k := |block.insts|;
    while k > 0
      invariant 0 <= k <= |block.insts|
      invariant out == TransferInstsBack(a, block.insts[k..], after)
    {
      k := k - 1;
      assert block.insts[k..][1..] == block.insts[k + 1..];
      out := a.inst(block.insts[k], out);
    }
  }

  ghost predicate Legal<S(!new)>(
      func: Function, states: map<Label, S>, inv: (Label, S) -> bool, rank: S -> nat, h: nat) {
    states.Keys == Labels(func) && forall l :: l in states ==> inv(l, states[l]) && rank(states[l]) <= h
  }

  ghost predicate Climbs<S(!new)>(
      func: Function, states0: map<Label, S>, states: map<Label, S>, changed: bool,
      inv: (Label, S) -> bool, rank: S -> nat, h: nat)
  {
    && Legal(func, states0, inv, rank, h) && Legal(func, states, inv, rank, h)
    && if changed then Slack(func.blocks, states, rank, h) < Slack(func.blocks, states0, rank, h) else states == states0
  }

  method RunBackward<S(==, !new)>(
      func: Function, a: Analysis<S>, ghost inv: (Label, S) -> bool, ghost rank: S -> nat, ghost h: nat)
    returns (states: map<Label, S>, sweeps: nat, ghost preds: EdgeMap)
    requires DistinctLabels(func.blocks)
    requires BackInvariant(func, a, inv)
    requires Ascends(a, inv, rank, h)
    ensures BackwardFixpoint(func, a, preds, states)
    ensures forall l :: l in states ==> inv(l, states[l])
    ensures sweeps <= |func.blocks| * h + 1
  {
    states := map[];
    for i := 0 to |func.blocks|
      invariant forall j :: 0 <= j < i ==> func.blocks[j].name in states
      invariant states.Keys <= Labels(func)
      invariant forall l :: l in states ==> states[l] == a.bottom
    {
      states := states[func.blocks[i].name := a.bottom];
    }
    if |func.blocks| > 0 {
      states := states[func.blocks[|func.blocks| - 1].name := a.entry];
    }
    InitLegal(func, a, states, inv, rank, h);
    var edges, succs := ComputeCfgEdges(func);
    preds := edges;
    var calls := 0;
    var changed := true;
    sweeps := 0;
    SlackBound(func.blocks, states, rank, h);
    while changed
      invariant Legal(func, states, inv, rank, h)
      invariant !changed ==> BackwardFixpoint(func, a, preds, states)
      invariant sweeps + Slack(func.blocks, states, rank, h) <= |func.blocks| * h + (if changed then 0 else 1)
      decreases changed, Slack(func.blocks, states, rank, h)
    {
      states, changed, calls := SweepBack(func, a, edges, states, calls, inv, rank, h);
      sweeps := sweeps + 1;
    }
  }

  lemma InitLegal<S(!new)>(
      func: Function, a: Analysis<S>, states: map<Label, S>, inv: (Label, S) -> bool, rank: S -> nat, h: nat)
    requires BackInvariant(func, a, inv) && Ascends(a, inv, rank, h)
    requires states.Keys == Labels(func)
    requires forall l :: l in states ==> states[l] == if IsExit(func, l) then a.entry else a.bottom
    ensures Legal(func, states, inv, rank, h)
  {}

  lemma BackMergeKeeps<S(!new)>(
      func: Function, a: Analysis<S>, i: nat, x: Label, s: S, d: S, call: nat,
      inv: (Label, S) -> bool, rank: S -> nat, h: nat)
    requires BackInvariant(func, a, inv) && Ascends(a, inv, rank, h)
    requires i < |func.blocks| && Edge(func, x, func.blocks[i].name)
    requires inv(func.blocks[i].name, s) && inv(x, d)
    ensures var m := a.merge(d, TransferBack(a, func.blocks[i], s), call);
      inv(x, m) && rank(m) <= h && (m != d ==> rank(d) < rank(m))
  {}

  lemma ClimbOne<S(!new)>(
      func: Function, states0: map<Label, S>, states: map<Label, S>, changed: bool, x: Label, m: S,
      inv: (Label, S) -> bool, rank: S -> nat, h: nat)
    requires DistinctLabels(func.blocks) && x in Labels(func)
    requires Climbs(func, states0, states, changed, inv, rank, h)
    requires inv(x, m) && rank(states[x]) < rank(m) <= h
    ensures Climbs(func, states0, states[x := m], true, inv, rank, h)
  {
    SlackFalls(func.blocks, states, rank, h, x, m);
  }

  /** One pass over the blocks, last to first. */
  method SweepBack<S(==, !new)>(
      func: Function, a: Analysis<S>, preds: EdgeMap, states0: map<Label, S>, calls0: nat,
      ghost inv: (Label, S) -> bool, ghost rank: S -> nat, ghost h: nat)
    returns (states: map<Label, S>, changed: bool, calls: nat)
    requires DistinctLabels(func.blocks) && IsPreds(func, preds)
    requires BackInvariant(func, a, inv)
    requires Ascends(a, inv, rank, h)
    requires Legal(func, states0, inv, rank, h)
    ensures Climbs(func, states0, states, changed, inv, rank, h)
    ensures !changed ==> BackwardFixpoint(func, a, preds, states)
  {
    states, changed, calls := states0, false, calls0;
    var i := |func.blocks|;
    while i > 0
      invariant 0 <= i <= |func.blocks|
      invariant Climbs(func, states0, states, changed, inv, rank, h)
      invariant !changed ==>
        forall j :: i <= j < |func.blocks| ==> BackBlockStable(a, func.blocks[j], preds[func.blocks[j].name], states)
    {
      i := i - 1;
      ghost var before := states;
      var current := ApplyBlockBack(a, func.blocks[i], states[func.blocks[i].name]);
      var moved: bool;
      EdgesIn(func, preds, i);
      states, moved, calls :=
        PropagateBack(func, a, i, preds[func.blocks[i].name], current, states, calls, inv, rank, h);
      changed := changed || moved;
    }
  }

  lemma EdgesIn(func: Function, preds: EdgeMap, i: nat)
    requires IsPreds(func, preds) && i < |func.blocks|
    ensures func.blocks[i].name in preds
    ensures forall k :: 0 <= k < |preds[func.blocks[i].name]| ==>
      Edge(func, preds[func.blocks[i].name][k], func.blocks[i].name)
  {
    var y := func.blocks[i].name;
    forall k | 0 <= k < |preds[y]| ensures Edge(func, preds[y][k], y) {
      assert preds[y][k] in preds[y];
    }
  }

  method PropagateBack<S(==, !new)>(
      func: Function, a: Analysis<S>, i: nat, ps: seq<Label>, current: S, states0: map<Label, S>, calls0: nat,
      ghost inv: (Label, S) -> bool, ghost rank: S -> nat, ghost h: nat)
    returns (states: map<Label, S>, changed: bool, calls: nat)
    requires DistinctLabels(func.blocks) && i < |func.blocks|
    requires forall k :: 0 <= k < |ps| ==> Edge(func, ps[k], func.blocks[i].name)
    requires BackInvariant(func, a, inv)
    requires Ascends(a, inv, rank, h)
    requires Legal(func, states0, inv, rank, h)
    requires current == TransferBack(a, func.blocks[i], states0[func.blocks[i].name])
    ensures Climbs(func, states0, states, changed, inv, rank, h)
    ensures !changed ==> BackBlockStable(a, func.blocks[i], ps, states)
  {
    hide Ascends, BackInvariant, Slack;
    states, changed, calls := states0, false, calls0;
    for k := 0 to |ps|
      invariant Climbs(func, states0, states, changed, inv, rank, h)
      invariant !changed ==> BackBlockStable(a, func.blocks[i], ps[..k], states)
    {
      var x := ps[k];
      assert x in Labels(func);
      var merged := a.merge(states[x], current, calls);
      BackMergeKeeps(func, a, i, x, states0[func.blocks[i].name], states[x], calls, inv, rank, h);
      if merged != states[x] {
        ClimbOne(func, states0, states, changed, x, merged, inv, rank, h);
        states := states[x := merged];
        changed := true;
      } else if !changed {
        assert BackStable(a, func.blocks[i], x, states);
      }
      assert ps[..k + 1] == ps[..k] + [x];
      calls := calls + 1;
    }
    assert ps[..|ps|] == ps;
  }
}
