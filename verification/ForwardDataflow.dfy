/** The forward sweep-to-fixpoint engine, generic in the analysis it runs.

    An analysis is a record of functions.  `merge` takes the number of the merge call as a
    third argument: two calls with equal states may answer differently, as they do in the
    compiler when a merge walks a hash table. */
module ForwardDataflow {
  import opened Wrappers
  import opened Mvir

  datatype Analysis<!S> = Analysis(
    bottom: S,
    entry: S,
    inst: (ValueId, S) -> S,
    term: (Terminator, S) -> S,
    edge: (Label, Label, S) -> S,
    merge: (S, S, nat) -> S)

  function TransferInsts<S>(a: Analysis<S>, insts: seq<ValueId>, s: S): S {
    if insts == [] then s else TransferInsts(a, insts[1..], a.inst(insts[0], s))
  }

  function TransferBlock<S>(a: Analysis<S>, block: BasicBlock, s: S): S {
    var after := TransferInsts(a, block.insts, s);
    match block.terminator
    case Some(t) => a.term(t, after)
    case None => after
  }

  lemma {:induction false} TransferInstsSnoc<S>(a: Analysis<S>, insts: seq<ValueId>, s: S, k: nat)
    requires k < |insts|
    ensures TransferInsts(a, insts[..k + 1], s) == a.inst(insts[k], TransferInsts(a, insts[..k], s))
  {
    if k == 0 {
      assert insts[..1] == [insts[0]];
      assert insts[..0] == [];
      assert insts[..1][1..] == [];
    } else {
      TransferInstsSnoc(a, insts[1..], a.inst(insts[0], s), k - 1);
      assert insts[..k + 1][1..] == insts[1..][..k];
      assert insts[..k][1..] == insts[1..][..k - 1];
    }
  }

  /** What block `from` sends along its edge to `to`. */
  function Flow<S>(a: Analysis<S>, block: BasicBlock, to: Label, s: S): S {
    a.edge(block.name, to, TransferBlock(a, block, s))
  }

  predicate IsEntry(func: Function, l: Label) {
    |func.blocks| > 0 && func.blocks[0].name == l
  }

  /** `inv` holds of every initial state and survives every flow and every merge. */
  ghost predicate Invariant<S(!new)>(func: Function, a: Analysis<S>, inv: (Label, S) -> bool) {
    && (forall l :: inv(l, if IsEntry(func, l) then a.entry else a.bottom))
    && (forall i, y, s, d, t: nat ::
          0 <= i < |func.blocks| && y in Successors(func.blocks[i])
          && inv(func.blocks[i].name, s) && inv(y, d)
          ==> inv(y, a.merge(d, Flow(a, func.blocks[i], y, s), t)))
  }

  /** A merge that changes an `inv`-state strictly raises its rank, and ranks stop at `h`. */
  ghost predicate Ascends<S(!new)>(a: Analysis<S>, inv: (Label, S) -> bool, rank: S -> nat, h: nat) {
    && (forall l, s :: inv(l, s) ==> rank(s) <= h)
    && (forall l, d, s, t: nat ::
          inv(l, d) && inv(l, a.merge(d, s, t)) && a.merge(d, s, t) != d
          ==> rank(d) < rank(a.merge(d, s, t)))
  }

  /** Merging what flows along the edge into the target once more changes nothing. */
  ghost predicate EdgeStable<S(!new)>(a: Analysis<S>, block: BasicBlock, y: Label, states: map<Label, S>)
    requires block.name in states && y in states
  {
    exists t: nat :: a.merge(states[y], Flow(a, block, y, states[block.name]), t) == states[y]
  }

  ghost predicate BlockStable<S(!new)>(a: Analysis<S>, block: BasicBlock, reached: set<Label>, states: map<Label, S>)
    requires block.name in states
    requires forall y :: y in Successors(block) ==> y in states
  {
    block.name in reached ==>
      forall y :: y in Successors(block) ==> y in reached && EdgeStable(a, block, y, states)
  }

  /** The state the engine stops in: closed under reachability, no edge can change it. */
  ghost predicate ForwardFixpoint<S(!new)>(func: Function, a: Analysis<S>, states: map<Label, S>, reached: set<Label>) {
    && WellFormed(func)
    && states.Keys == Labels(func)
    && reached <= Labels(func)
    && (|func.blocks| > 0 ==> func.blocks[0].name in reached)
    && (forall i :: 0 <= i < |func.blocks| ==> BlockStable(a, func.blocks[i], reached, states))
  }

  // ----- the termination measure ---------------------------------------------------------

  ghost function Slack<S(!new)>(blocks: seq<BasicBlock>, states: map<Label, S>, rank: S -> nat, h: nat): nat
    requires forall i :: 0 <= i < |blocks| ==> blocks[i].name in states && rank(states[blocks[i].name]) <= h
  {
    if blocks == [] then 0
    else (h - rank(states[blocks[0].name])) + Slack(blocks[1..], states, rank, h)
  }

  lemma {:induction false} SlackSame<S(!new)>(
      blocks: seq<BasicBlock>, states: map<Label, S>, rank: S -> nat, h: nat, l: Label, s: S)
    requires forall i :: 0 <= i < |blocks| ==> blocks[i].name in states && rank(states[blocks[i].name]) <= h
    requires rank(s) <= h
    requires forall i :: 0 <= i < |blocks| ==> blocks[i].name != l
    ensures Slack(blocks, states[l := s], rank, h) == Slack(blocks, states, rank, h)
  {
    if blocks != [] {
      SlackSame(blocks[1..], states, rank, h, l, s);
    }
  }

  lemma {:induction false} SlackFalls<S(!new)>(
      blocks: seq<BasicBlock>, states: map<Label, S>, rank: S -> nat, h: nat, l: Label, s: S)
    requires DistinctLabels(blocks)
    requires forall i :: 0 <= i < |blocks| ==> blocks[i].name in states && rank(states[blocks[i].name]) <= h
    requires exists i :: 0 <= i < |blocks| && blocks[i].name == l
    requires rank(states[l]) < rank(s) <= h
    ensures Slack(blocks, states[l := s], rank, h) < Slack(blocks, states, rank, h)
  {
    var i :| 0 <= i < |blocks| && blocks[i].name == l;
    if blocks[0].name == l {
      assert forall j :: 0 <= j < |blocks[1..]| ==> blocks[1..][j].name != blocks[0].name;
      SlackSame(blocks[1..], states, rank, h, l, s);
    } else {
      assert blocks[1..][i - 1].name == l;
      SlackFalls(blocks[1..], states, rank, h, l, s);
    }
  }

  lemma {:induction false} SlackBound<S(!new)>(blocks: seq<BasicBlock>, states: map<Label, S>, rank: S -> nat, h: nat)
    requires forall i :: 0 <= i < |blocks| ==> blocks[i].name in states && rank(states[blocks[i].name]) <= h
    ensures Slack(blocks, states, rank, h) <= |blocks| * h
  {
    if blocks != [] {
      SlackBound(blocks[1..], states, rank, h);
      assert |blocks| * h == h + |blocks[1..]| * h;
    }
  }

  lemma {:induction false} LabelCount(blocks: seq<BasicBlock>)
    ensures |(set i | 0 <= i < |blocks| :: blocks[i].name)| <= |blocks|
  {
    if blocks != [] {
      LabelCount(blocks[1..]);
      var rest := set i | 0 <= i < |blocks[1..]| :: blocks[1..][i].name;
      var all := set i | 0 <= i < |blocks| :: blocks[i].name;
      forall l | l in all ensures l in rest + {blocks[0].name} {
        var i :| 0 <= i < |blocks| && blocks[i].name == l;
        if i > 0 { assert blocks[1..][i - 1].name == l; }
      }
      forall l | l in rest + {blocks[0].name} ensures l in all {
        if l != blocks[0].name {
          var i :| 0 <= i < |blocks[1..]| && blocks[1..][i].name == l;
          assert blocks[i + 1].name == l;
        }
      }
      assert all == rest + {blocks[0].name};
    }
  }

  /** What is left to do: reachable blocks to discover plus rank to climb. */
  ghost function Measure<S(!new)>(
      func: Function, states: map<Label, S>, reached: set<Label>, rank: S -> nat, h: nat): nat
    requires states.Keys == Labels(func)
    requires forall l :: l in states ==> rank(states[l]) <= h
    requires reached <= Labels(func)
  {
    |Labels(func) - reached| + Slack(func.blocks, states, rank, h)
  }

  // ----- the engine ----------------------------------------------------------------------

  method ApplyBlock<S>(a: Analysis<S>, block: BasicBlock, s: S) returns (out: S)
    ensures out == TransferBlock(a, block, s)
  {
    out := s;
    for k := 0 to |block.insts|
      invariant out == TransferInsts(a, block.insts[..k], s)
    {
      TransferInstsSnoc(a, block.insts, s, k);
      out := a.inst(block.insts[k], out);
    }
    assert block.insts[..|block.insts|] == block.insts;
    if block.terminator.Some? {
      out := a.term(block.terminator.value, out);
    }
  }

  method RunForward<S(==, !new)>(
      func: Function, a: Analysis<S>, start: map<Label, S>,
      ghost inv: (Label, S) -> bool, ghost rank: S -> nat, ghost h: nat)
    returns (states: map<Label, S>, iterations: nat, reached: set<Label>)
    requires WellFormed(func)
    requires start.Keys <= Labels(func)
    requires forall l :: l in start && !IsEntry(func, l) ==> inv(l, start[l])
    requires Invariant(func, a, inv)
    requires Ascends(a, inv, rank, h)
    ensures ForwardFixpoint(func, a, states, reached)
    ensures forall l :: l in states ==> inv(l, states[l])
    ensures forall l :: l in reached <==> Reachable(func, l)
    ensures |func.blocks| > 0 ==> iterations <= |func.blocks| * (h + 1)
  {
    hide Measure, Invariant, ForwardFixpoint;
    states := InitStates(func, a, start, inv, rank, h);
    reached := {};
    if |func.blocks| > 0 {
      reached := {func.blocks[0].name};
    }
    ghost var live := ReachableLabels(func);
    var calls := 0;
    var changed := true;
    iterations := 0;
    MeasureBound(func, states, reached, rank, h);
    while changed
      invariant Running(func, states, reached, live, inv)
      invariant forall l :: l in states ==> rank(states[l]) <= h
      invariant |func.blocks| > 0 ==>
        iterations + Measure(func, states, reached, rank, h)
        <= |func.blocks| * h + |func.blocks| - (if changed then 1 else 0)
      invariant !changed ==> ForwardFixpoint(func, a, states, reached)
      decreases changed, Measure(func, states, reached, rank, h)
    {
      states, reached, changed, calls := Sweep(func, a, states, reached, calls, live, inv, rank, h);
      iterations := iterations + 1;
    }
    ReachedExactly(func, a, states, reached);
    if |func.blocks| > 0 {
      assert |func.blocks| * (h + 1) == |func.blocks| * h + |func.blocks|;
    }
  }

  /** The states of the function's own blocks. */
  function Own<S>(func: Function, states: map<Label, S>): map<Label, S> {
    map l | l in states && l in Labels(func) :: states[l]
  }

  /** The same from any starting states: those under other names are carried along untouched. */
  method RunIncremental<S(==, !new)>(
      func: Function, a: Analysis<S>, start: map<Label, S>,
      ghost inv: (Label, S) -> bool, ghost rank: S -> nat, ghost h: nat)
    returns (states: map<Label, S>, iterations: nat, reached: set<Label>)
    requires WellFormed(func)
    requires forall l :: l in start && l in Labels(func) && !IsEntry(func, l) ==> inv(l, start[l])
    requires Invariant(func, a, inv)
    requires Ascends(a, inv, rank, h)
    ensures ForwardFixpoint(func, a, Own(func, states), reached)
    ensures forall l :: l in Own(func, states) ==> inv(l, states[l])
    ensures forall l :: l in reached <==> Reachable(func, l)
    ensures |func.blocks| > 0 ==> iterations <= |func.blocks| * (h + 1)
    ensures forall l :: l !in Labels(func) ==> (l in states <==> l in start) && (l in start ==> states[l] == start[l])
  {
    var own: map<Label, S>;
    own, iterations, reached := RunForward(func, a, Own(func, start), inv, rank, h);
    states := start + own;
    assert Own(func, states) == own;
  }

  /** The states before the first sweep: `start` where it has one, `bottom` elsewhere, and
      `entry` at the first block. */
  method InitStates<S(!new)>(
      func: Function, a: Analysis<S>, start: map<Label, S>,
      ghost inv: (Label, S) -> bool, ghost rank: S -> nat, ghost h: nat)
    returns (states: map<Label, S>)
    requires start.Keys <= Labels(func)
    requires forall l :: l in start && !IsEntry(func, l) ==> inv(l, start[l])
    requires Invariant(func, a, inv)
    requires Ascends(a, inv, rank, h)
    ensures states.Keys == Labels(func)
    ensures forall l :: l in states ==> inv(l, states[l]) && rank(states[l]) <= h
    ensures forall l :: l in states ==>
      states[l] == if IsEntry(func, l) then a.entry else if l in start then start[l] else a.bottom
  {
    states := start;
    for i := 0 to |func.blocks|
      invariant start.Keys <= states.Keys <= Labels(func)
      invariant forall j :: 0 <= j < i ==> func.blocks[j].name in states
      invariant forall l :: l in states ==> states[l] == if l in start then start[l] else a.bottom
    {
      if func.blocks[i].name !in states {
        states := states[func.blocks[i].name := a.bottom];
      }
    }
    if |func.blocks| > 0 {
      states := states[func.blocks[0].name := a.entry];
    }
    forall l | l in states ensures inv(l, states[l]) {
      assert inv(l, if IsEntry(func, l) then a.entry else a.bottom);
    }
  }

  ghost function ReachableLabels(func: Function): (live: set<Label>)
    requires WellFormed(func)
    ensures ClosedUnderEdges(func, live)
    ensures |func.blocks| > 0 ==> func.blocks[0].name in live
    ensures forall l :: l in live ==> Reachable(func, l)
  {
    var live := set l | l in Labels(func) && Reachable(func, l);
    assert ClosedUnderEdges(func, live) by {
      forall i, y | 0 <= i < |func.blocks| && func.blocks[i].name in live && y in Successors(func.blocks[i])
        ensures y in live
      {
        assert Edge(func, func.blocks[i].name, y);
        ReachableStep(func, func.blocks[i].name, y);
      }
    }
    assert |func.blocks| > 0 ==> func.blocks[0].name in live by {
      if |func.blocks| > 0 {
        var l := func.blocks[0].name;
        assert IsPathBetween(func, [l], l, l);
      }
    }
    live
  }

  lemma ReachedExactly<S(!new)>(func: Function, a: Analysis<S>, states: map<Label, S>, reached: set<Label>)
    requires ForwardFixpoint(func, a, states, reached)
    requires reached <= ReachableLabels(func)
    ensures forall l :: l in reached <==> Reachable(func, l)
  {
    forall l | Reachable(func, l) ensures l in reached {
      var path :| IsPathBetween(func, path, func.blocks[0].name, l);
      FixpointReaches(func, a, states, reached, path);
    }
  }

  lemma MeasureBound<S(!new)>(func: Function, states: map<Label, S>, reached: set<Label>, rank: S -> nat, h: nat)
    requires states.Keys == Labels(func)
    requires forall l :: l in states ==> rank(states[l]) <= h
    requires reached <= Labels(func)
    ensures Measure(func, states, reached, rank, h) <= |func.blocks| * h + |func.blocks| - |reached|
  {
    SlackBound(func.blocks, states, rank, h);
    LabelCount(func.blocks);
    assert |Labels(func) - reached| == |Labels(func)| - |reached|;
  }

  /** What every step of the engine keeps. */
  ghost predicate Running<S(!new)>(
      func: Function, states: map<Label, S>, reached: set<Label>, live: set<Label>, inv: (Label, S) -> bool) {
    && states.Keys == Labels(func)
    && reached <= Labels(func)
    && (|func.blocks| > 0 ==> func.blocks[0].name in reached)
    && (forall l :: l in states ==> inv(l, states[l]))
    && reached <= live
  }

  ghost predicate ClosedUnderEdges(func: Function, live: set<Label>) {
    forall i, y :: 0 <= i < |func.blocks| && func.blocks[i].name in live && y in Successors(func.blocks[i]) ==>
      y in live
  }

  /** The step is legal, and it changed nothing or brought the engine closer to its end. */
  ghost predicate Progress<S(!new)>(
      func: Function, states0: map<Label, S>, reached0: set<Label>, states: map<Label, S>, reached: set<Label>,
      changed: bool, live: set<Label>, inv: (Label, S) -> bool, rank: S -> nat, h: nat)
  {
    && Running(func, states0, reached0, live, inv)
    && Running(func, states, reached, live, inv)
    && (forall l :: l in states0 ==> rank(states0[l]) <= h)
    && (forall l :: l in states ==> rank(states[l]) <= h)
    && (if changed then Measure(func, states, reached, rank, h) < Measure(func, states0, reached0, rank, h)
        else states == states0 && reached == reached0)
  }

  lemma ProgressTrans<S(!new)>(
      func: Function, st0: map<Label, S>, re0: set<Label>, st1: map<Label, S>, re1: set<Label>, ch1: bool,
      st2: map<Label, S>, re2: set<Label>, ch2: bool, live: set<Label>, inv: (Label, S) -> bool, rank: S -> nat, h: nat)
    requires Progress(func, st0, re0, st1, re1, ch1, live, inv, rank, h)
    requires Progress(func, st1, re1, st2, re2, ch2, live, inv, rank, h)
    ensures Progress(func, st0, re0, st2, re2, ch1 || ch2, live, inv, rank, h)
  {}

  lemma Idle<S(!new)>(func: Function, a: Analysis<S>, states: map<Label, S>, reached: set<Label>,
      live: set<Label>, inv: (Label, S) -> bool, rank: S -> nat, h: nat)
    requires Running(func, states, reached, live, inv) && Ascends(a, inv, rank, h)
    ensures Progress(func, states, reached, states, reached, false, live, inv, rank, h)
  {}

  /** One pass over the blocks in order, as in the body of the engine's outer loop. */
  method Sweep<S(==, !new)>(
      func: Function, a: Analysis<S>, states0: map<Label, S>, reached0: set<Label>, calls0: nat,
      ghost live: set<Label>, ghost inv: (Label, S) -> bool, ghost rank: S -> nat, ghost h: nat)
    returns (states: map<Label, S>, reached: set<Label>, changed: bool, calls: nat)
    requires WellFormed(func)
    requires ClosedUnderEdges(func, live)
    requires Invariant(func, a, inv)
    requires Ascends(a, inv, rank, h)
    requires Running(func, states0, reached0, live, inv)
    ensures Progress(func, states0, reached0, states, reached, changed, live, inv, rank, h)
    ensures !changed ==> ForwardFixpoint(func, a, states, reached)
  {
    hide Measure, Invariant, Ascends;
    states, reached, changed, calls := states0, reached0, false, calls0;
    Idle(func, a, states, reached, live, inv, rank, h);
    for i := 0 to |func.blocks|
      invariant Progress(func, states0, reached0, states, reached, changed, live, inv, rank, h)
      invariant !changed ==> forall j :: 0 <= j < i ==> BlockStable(a, func.blocks[j], reached, states)
    {
      var block := func.blocks[i];
      if block.name in reached {
        var current := ApplyBlock(a, block, states[block.name]);
        ghost var st, re, ch := states, reached, changed;
        var moved: bool;
        states, reached, moved, calls := Propagate(func, a, i, current, states, reached, calls, live, inv, rank, h);
        changed := changed || moved;
        ProgressTrans(func, states0, reached0, st, re, ch, states, reached, moved, live, inv, rank, h);
      }
    }
  }

  /** Every edge of `block` to a label in `ys` is settled. */
  ghost predicate Settled<S(!new)>(
      a: Analysis<S>, block: BasicBlock, ys: seq<Label>, reached: set<Label>, states: map<Label, S>)
    requires block.name in states
    requires forall y :: y in ys ==> y in states
  {
    forall y :: y in ys ==> y in reached && EdgeStable(a, block, y, states)
  }

  lemma SettleOne<S(!new)>(
      a: Analysis<S>, block: BasicBlock, ys: seq<Label>, k: nat, reached: set<Label>, states: map<Label, S>, call: nat)
    requires k < |ys| && block.name in states && forall y :: y in ys ==> y in states
    requires Settled(a, block, ys[..k], reached, states)
    requires ys[k] in reached
    requires a.merge(states[ys[k]], Flow(a, block, ys[k], states[block.name]), call) == states[ys[k]]
    ensures Settled(a, block, ys[..k + 1], reached, states)
  {
    assert ys[..k + 1] == ys[..k] + [ys[k]];
    assert EdgeStable(a, block, ys[k], states);
  }

  /** Sends the out-state of block `i` to its successors. */
  method Propagate<S(==, !new)>(
      func: Function, a: Analysis<S>, i: nat, current: S, states0: map<Label, S>, reached0: set<Label>, calls0: nat,
      ghost live: set<Label>, ghost inv: (Label, S) -> bool, ghost rank: S -> nat, ghost h: nat)
    returns (states: map<Label, S>, reached: set<Label>, changed: bool, calls: nat)
    requires WellFormed(func) && i < |func.blocks|
    requires ClosedUnderEdges(func, live)
    requires Invariant(func, a, inv)
    requires Ascends(a, inv, rank, h)
    requires Running(func, states0, reached0, live, inv)
    requires func.blocks[i].name in reached0
    requires current == TransferBlock(a, func.blocks[i], states0[func.blocks[i].name])
    ensures Progress(func, states0, reached0, states, reached, changed, live, inv, rank, h)
    ensures !changed ==> BlockStable(a, func.blocks[i], reached, states)
  {
    hide Measure, Invariant, Ascends;
    states, reached, changed, calls := states0, reached0, false, calls0;
    Idle(func, a, states, reached, live, inv, rank, h);
    var block := func.blocks[i];
    var succs := Successors(block);
    for k := 0 to |succs|
      invariant Progress(func, states0, reached0, states, reached, changed, live, inv, rank, h)
      invariant !changed ==> Settled(a, block, succs[..k], reached, states)
    {
      ghost var st, re, ch := states, reached, changed;
      var moved: bool;
      states, reached, moved :=
        Deliver(func, a, i, succs[k], current, states, reached, calls, states0[block.name], live, inv, rank, h);
      changed := changed || moved;
      ProgressTrans(func, states0, reached0, st, re, ch, states, reached, moved, live, inv, rank, h);
      if !changed {
        SettleOne(a, block, succs, k, reached, states, calls);
      }
      calls := calls + 1;
    }
    assert succs[..|succs|] == succs;
  }

  lemma ReachMore<S(!new)>(
      func: Function, states: map<Label, S>, reached: set<Label>, succ: Label,
      live: set<Label>, inv: (Label, S) -> bool, rank: S -> nat, h: nat)
    requires Running(func, states, reached, live, inv)
    requires forall l :: l in states ==> rank(states[l]) <= h
    requires succ in Labels(func) && succ in live && succ !in reached
    ensures Progress(func, states, reached, states, reached + {succ}, true, live, inv, rank, h)
  {
    assert Labels(func) - (reached + {succ}) == (Labels(func) - reached) - {succ};
  }

  lemma ClimbMore<S(!new)>(
      func: Function, states: map<Label, S>, reached: set<Label>, succ: Label, merged: S,
      live: set<Label>, inv: (Label, S) -> bool, rank: S -> nat, h: nat)
    requires DistinctLabels(func.blocks)
    requires Running(func, states, reached, live, inv)
    requires forall l :: l in states ==> rank(states[l]) <= h
    requires succ in Labels(func) && inv(succ, merged) && rank(states[succ]) < rank(merged) <= h
    ensures Progress(func, states, reached, states[succ := merged], reached, true, live, inv, rank, h)
  {
    SlackFalls(func.blocks, states, rank, h, succ, merged);
  }

  lemma MergeKeeps<S(!new)>(
      func: Function, a: Analysis<S>, i: nat, succ: Label, before: S, d: S, call: nat,
      inv: (Label, S) -> bool, rank: S -> nat, h: nat)
    requires Invariant(func, a, inv) && Ascends(a, inv, rank, h)
    requires i < |func.blocks| && succ in Successors(func.blocks[i])
    requires inv(func.blocks[i].name, before) && inv(succ, d)
    ensures var m := a.merge(d, Flow(a, func.blocks[i], succ, before), call);
      inv(succ, m) && rank(m) <= h && (m != d ==> rank(d) < rank(m))
  {}

  /** Marks `succ` reachable and merges what flows to it. */
  method Deliver<S(==, !new)>(
      func: Function, a: Analysis<S>, i: nat, succ: Label, current: S,
      states0: map<Label, S>, reached0: set<Label>, call: nat, ghost before: S,
      ghost live: set<Label>, ghost inv: (Label, S) -> bool, ghost rank: S -> nat, ghost h: nat)
    returns (states: map<Label, S>, reached: set<Label>, changed: bool)
    requires WellFormed(func) && i < |func.blocks| && succ in Successors(func.blocks[i])
    requires succ in live
    requires Invariant(func, a, inv)
    requires Ascends(a, inv, rank, h)
    requires Running(func, states0, reached0, live, inv)
    requires inv(func.blocks[i].name, before) && current == TransferBlock(a, func.blocks[i], before)
    ensures Progress(func, states0, reached0, states, reached, changed, live, inv, rank, h)
    ensures !changed ==> succ in reached
    ensures !changed ==> a.merge(states[succ], Flow(a, func.blocks[i], succ, before), call) == states[succ]
  {
    hide Measure, Invariant, Ascends;
    states, reached, changed := states0, reached0, false;
    Idle(func, a, states, reached, live, inv, rank, h);
    if succ !in reached {
      ReachMore(func, states, reached, succ, live, inv, rank, h);
      reached := reached + {succ};
      changed := true;
    }
    var edgeState := a.edge(func.blocks[i].name, succ, current);
    var merged := a.merge(states[succ], edgeState, call);
    MergeKeeps(func, a, i, succ, before, states[succ], call, inv, rank, h);
    if merged != states[succ] {
      ClimbMore(func, states, reached, succ, merged, live, inv, rank, h);
      ProgressTrans(func, states0, reached0, states, reached, changed, states[succ := merged], reached, true,
        live, inv, rank, h);
      states := states[succ := merged];
      changed := true;
    }
  }

  // ----- that there is a fixpoint --------------------------------------------------------

  lemma {:induction false} FixpointFrom<S(!new)>(
      func: Function, a: Analysis<S>, states0: map<Label, S>, reached0: set<Label>,
      live: set<Label>, inv: (Label, S) -> bool, rank: S -> nat, h: nat)
    returns (states: map<Label, S>, reached: set<Label>)
    requires WellFormed(func) && ClosedUnderEdges(func, live)
    requires Invariant(func, a, inv) && Ascends(a, inv, rank, h)
    requires Running(func, states0, reached0, live, inv) && forall l :: l in states0 ==> rank(states0[l]) <= h
    ensures ForwardFixpoint(func, a, states, reached) && Running(func, states, reached, live, inv)
    decreases Measure(func, states0, reached0, rank, h)
  {
    hide Measure, Invariant, Ascends;
    if ForwardFixpoint(func, a, states0, reached0) {
      return states0, reached0;
    }
    var i :| 0 <= i < |func.blocks| && !BlockStable(a, func.blocks[i], reached0, states0);
    var block := func.blocks[i];
    var y :| y in Successors(block) && !(y in reached0 && EdgeStable(a, block, y, states0));
    if y !in reached0 {
      ReachMore(func, states0, reached0, y, live, inv, rank, h);
      states, reached := FixpointFrom(func, a, states0, reached0 + {y}, live, inv, rank, h);
    } else {
      var merged := a.merge(states0[y], Flow(a, block, y, states0[block.name]), 0);
      MergeKeeps(func, a, i, y, states0[block.name], states0[y], 0, inv, rank, h);
      ClimbMore(func, states0, reached0, y, merged, live, inv, rank, h);
      states, reached := FixpointFrom(func, a, states0[y := merged], reached0, live, inv, rank, h);
    }
  }

  /** An analysis that ascends has a fixpoint in states that all have `inv`. */
  lemma FixpointExists<S(!new)>(func: Function, a: Analysis<S>, inv: (Label, S) -> bool, rank: S -> nat, h: nat)
    returns (states: map<Label, S>, reached: set<Label>)
    requires WellFormed(func) && Invariant(func, a, inv) && Ascends(a, inv, rank, h)
    ensures ForwardFixpoint(func, a, states, reached)
    ensures forall l :: l in states ==> inv(l, states[l])
    ensures forall l :: l in reached <==> Reachable(func, l)
  {
    var start := map l | l in Labels(func) :: if IsEntry(func, l) then a.entry else a.bottom;
    var first := if |func.blocks| > 0 then {func.blocks[0].name} else {};
    states, reached := FixpointFrom(func, a, start, first, ReachableLabels(func), inv, rank, h);
    ReachedExactly(func, a, states, reached);
  }

  // ----- what a fixpoint means -----------------------------------------------------------

  lemma {:induction false} FixpointReaches<S(!new)>(
      func: Function, a: Analysis<S>, states: map<Label, S>, reached: set<Label>, path: seq<Label>)
    requires ForwardFixpoint(func, a, states, reached)
    requires |func.blocks| > 0 && IsPath(func, path) && path[0] == func.blocks[0].name
    ensures path[|path| - 1] in reached
    decreases |path|
  {
    if |path| > 1 {
      var init := path[..|path| - 1];
      assert IsPath(func, init);
      FixpointReaches(func, a, states, reached, init);
      assert Edge(func, path[|path| - 2], path[|path| - 1]);
    }
  }

  /** The state at the entry of the last block of `path` when control follows it from `s`. */
  ghost function PathState<S>(func: Function, a: Analysis<S>, path: seq<Label>, s: S): S
    requires IsPath(func, path)
    decreases |path|
  {
    if |path| == 1 then s
    else
      var init := path[..|path| - 1];
      assert IsPath(func, init);
      assert Edge(func, path[|path| - 2], path[|path| - 1]);
      Flow(a, BlockNamed(func, init[|init| - 1]), path[|path| - 1], PathState(func, a, init, s))
  }

  ghost function BlockNamed(func: Function, l: Label): (b: BasicBlock)
    requires l in Labels(func)
    ensures b in func.blocks && b.name == l
  {
    var i :| 0 <= i < |func.blocks| && func.blocks[i].name == l;
    func.blocks[i]
  }

  ghost predicate Monotone<S(!new)>(func: Function, a: Analysis<S>, le: (S, S) -> bool) {
    forall b, y, s, t :: b in func.blocks && y in Successors(b) && le(s, t) ==> le(Flow(a, b, y, s), Flow(a, b, y, t))
  }

  ghost predicate MergeCovers<S(!new)>(a: Analysis<S>, le: (S, S) -> bool) {
    && (forall d, s, t: nat :: le(s, a.merge(d, s, t)))
    && (forall x, y, z :: le(x, y) && le(y, z) ==> le(x, z))
  }

  /** With a monotone flow the fixpoint covers what any walk from the entry computes. */
  lemma {:induction false} FixpointCoversPaths<S(!new)>(
      func: Function, a: Analysis<S>, states: map<Label, S>, reached: set<Label>,
      le: (S, S) -> bool, path: seq<Label>, s: S)
    requires ForwardFixpoint(func, a, states, reached)
    requires Monotone(func, a, le) && MergeCovers(a, le)
    requires IsPath(func, path) && path[0] in reached && le(s, states[path[0]])
    ensures path[|path| - 1] in reached
    ensures le(PathState(func, a, path, s), states[path[|path| - 1]])
    decreases |path|
  {
    if |path| > 1 {
      var init := path[..|path| - 1];
      assert IsPath(func, init);
      FixpointCoversPaths(func, a, states, reached, le, init, s);
      var x, y := path[|path| - 2], path[|path| - 1];
      assert Edge(func, x, y);
      var b := BlockNamed(func, x);
      StableEdge(func, a, states, reached, b, y);
      assert le(Flow(a, b, y, PathState(func, a, init, s)), Flow(a, b, y, states[x]));
      var t: nat :| a.merge(states[y], Flow(a, b, y, states[x]), t) == states[y];
      assert le(Flow(a, b, y, states[x]), states[y]);
    }
  }

  lemma StableEdge<S(!new)>(
      func: Function, a: Analysis<S>, states: map<Label, S>, reached: set<Label>, b: BasicBlock, y: Label)
    requires ForwardFixpoint(func, a, states, reached)
    requires b.name in reached && b in func.blocks
    requires Edge(func, b.name, y)
    ensures y in Successors(b) && y in reached && EdgeStable(a, b, y, states)
  {
    var i :| 0 <= i < |func.blocks| && func.blocks[i] == b;
    assert BlockStable(a, func.blocks[i], reached, states);
  }
}
