/** Natural loops from back edges, and the edges that end the life of a loop's values. */
module NaturalLoops {
  import opened Mvir
  import opened Dominators

  datatype NaturalLoop = NaturalLoop(
    header: Label, latches: set<Label>, blocks: set<Label>, bodyBlocks: set<Label>, localValues: set<ValueId>)

  /** An edge to a block that dominates its source. */
  ghost predicate BackEdge(func: Function, u: Label, h: Label)
    requires |func.blocks| > 0
  {
    Edge(func, u, h) && h in DominatorSet(func, u)
  }

  /** A walk from `b` to `l` that never passes `h`. */
  ghost predicate AvoidingWalk(func: Function, path: seq<Label>, b: Label, l: Label, h: Label) {
    IsPathBetween(func, path, b, l) && h !in path
  }

  /** `b` reaches some latch without passing the header. */
  ghost predicate ReachesLatch(func: Function, b: Label, latches: set<Label>, h: Label) {
    exists path, l :: l in latches && AvoidingWalk(func, path, b, l, h)
  }

  /** The blocks, latches and values of the loop are exactly what its back edges determine. */
  ghost predicate IsNaturalLoop(func: Function, nl: NaturalLoop)
    requires |func.blocks| > 0
  {
    && (forall u :: u in nl.latches <==> BackEdge(func, u, nl.header))
    && nl.blocks == LoopSet(func, nl.latches, nl.header)
    && nl.bodyBlocks == nl.blocks - {nl.header}
    && (forall v :: v in nl.localValues <==>
          exists i :: 0 <= i < |func.blocks| && func.blocks[i].name in nl.bodyBlocks && v in func.blocks[i].insts)
  }

  // ----- the backward search -------------------------------------------------------------

  lemma ReachesLatchStep(func: Function, x: Label, y: Label, latches: set<Label>, h: Label)
    requires Edge(func, x, y) && x != h && ReachesLatch(func, y, latches, h)
    ensures ReachesLatch(func, x, latches, h)
  {
    var path, l :| l in latches && AvoidingWalk(func, path, y, l, h);
    assert AvoidingWalk(func, [x] + path, x, l, h);
  }

  /** Closed under predecessors, except through the header and what is still on the stack. */
  ghost predicate ClosedBut(preds: EdgeMap, blocks: set<Label>, h: Label, stack: seq<Label>) {
    forall x, y :: y in blocks && y != h && y !in stack && Listed(preds, x, y) ==> x in blocks
  }

  lemma {:induction false} ClosedContains(
      func: Function, preds: EdgeMap, blocks: set<Label>, h: Label, path: seq<Label>, l: Label)
    requires IsPreds(func, preds) && ClosedBut(preds, blocks, h, []) && blocks <= Labels(func)
    requires IsPath(func, path) && h !in path && path[|path| - 1] == l && l in blocks
    ensures path[0] in blocks
    decreases |path|
  {
    if |path| > 1 {
      var rest := path[1..];
      assert Edge(func, path[0], path[1]);
      assert path[1] in Labels(func) by {
        if |path| == 2 { assert path[1] == l; } else { assert Edge(func, path[1], path[2]); }
      }
      assert IsPath(func, rest);
      ClosedContains(func, preds, blocks, h, rest, l);
      assert Listed(preds, path[0], path[1]);
    }
  }

  /** The header and every block that reaches a latch without passing it. */
  ghost function LoopSet(func: Function, latches: set<Label>, h: Label): set<Label> {
    set b | b in Labels(func) && (b == h || ReachesLatch(func, b, latches, h))
  }

  lemma PredsStayInLoop(func: Function, latches: set<Label>, h: Label, preds: EdgeMap, y: Label)
    requires IsPreds(func, preds) && y in preds
    requires y in LoopSet(func, latches, h) && y != h
    ensures forall x :: x in preds[y] ==> x in LoopSet(func, latches, h)
  {
    forall x | x in preds[y] ensures x in LoopSet(func, latches, h) {
      assert Edge(func, x, y);
      if x != h { ReachesLatchStep(func, x, y, latches, h); }
    }
  }

  lemma LatchesInLoop(func: Function, latches: set<Label>, h: Label)
    requires latches <= Labels(func) && h in Labels(func)
    ensures latches + {h} <= LoopSet(func, latches, h)
  {
    forall b | b in latches ensures b in LoopSet(func, latches, h) {
      if b != h { assert AvoidingWalk(func, [b], b, b, h); }
    }
  }

  /** What the search keeps: everything found belongs, everything stacked has been found. */
  ghost predicate Searching(latches: set<Label>, h: Label, whole: set<Label>, blocks: set<Label>, stack: seq<Label>) {
    latches + {h} <= blocks <= whole && forall y :: y in stack ==> y in blocks && y != h
  }

  lemma ClosedIsWhole(func: Function, preds: EdgeMap, latches: set<Label>, h: Label, blocks: set<Label>)
    requires IsPreds(func, preds) && ClosedBut(preds, blocks, h, [])
    requires latches + {h} <= blocks <= LoopSet(func, latches, h)
    ensures blocks == LoopSet(func, latches, h)
  {
    forall b | b in LoopSet(func, latches, h) ensures b in blocks {
      if b != h {
        var path, l :| l in latches && AvoidingWalk(func, path, b, l, h);
        ClosedContains(func, preds, blocks, h, path, l);
      }
    }
  }

  method LoopBlocks(func: Function, preds: EdgeMap, header: Label, latches: set<Label>) returns (blocks: set<Label>)
    requires IsPreds(func, preds) && latches <= Labels(func) && header in Labels(func)
    ensures blocks == LoopSet(func, latches, header)
  {
    ghost var whole := LoopSet(func, latches, header);
    LatchesInLoop(func, latches, header);
    forall y, x | y in whole && y != header && x in preds[y] ensures x in whole {
      PredsStayInLoop(func, latches, header, preds, y);
    }
    blocks := SearchBack(preds, header, latches, whole);
    ClosedIsWhole(func, preds, latches, header, blocks);
  }

  method SearchBack(
      preds: EdgeMap, header: Label, latches: set<Label>, ghost whole: set<Label>) returns (blocks: set<Label>)
    requires latches + {header} <= whole <= preds.Keys
    requires forall y, x :: y in whole && y != header && x in preds[y] ==> x in whole
    ensures latches + {header} <= blocks <= whole && ClosedBut(preds, blocks, header, [])
  {
    var stack: seq<Label>;
    blocks, stack := StartLoop(header, latches);
    while stack != []
      invariant Searching(latches, header, whole, blocks, stack)
      invariant ClosedBut(preds, blocks, header, stack)
      decreases |whole - blocks|, |stack|
    {
      var curr := stack[|stack| - 1];
      stack := stack[..|stack| - 1];
      ghost var blocks0, stack0 := blocks, stack;
      blocks, stack := Expand(header, latches, whole, preds[curr], blocks, stack);
      ExpandedIsClosed(preds, header, curr, blocks0, stack0, blocks, stack);
    }
  }

  method StartLoop(header: Label, latches: set<Label>) returns (blocks: set<Label>, stack: seq<Label>)
    ensures blocks == latches + {header}
    ensures forall y :: y in stack <==> y in latches && y != header
  {
    blocks, stack := {header}, [];
    var rest := latches;
    while rest != {}
      invariant rest <= latches
      invariant blocks == (latches - rest) + {header}
      invariant forall y :: y in stack <==> y in latches - rest && y != header
      decreases rest
    {
      var latch :| latch in rest;
      rest := rest - {latch};
      blocks := blocks + {latch};
      if latch != header { stack := stack + [latch]; }
    }
  }

  lemma ExpandedIsClosed(
      preds: EdgeMap, h: Label, curr: Label, blocks0: set<Label>, stack0: seq<Label>, blocks: set<Label>,
      stack: seq<Label>)
    requires ClosedBut(preds, blocks0, h, stack0 + [curr]) && blocks0 <= blocks
    requires curr in preds && forall x :: x in preds[curr] ==> x in blocks
    requires forall y :: y in stack0 ==> y in stack
    requires forall y :: y in blocks && y !in blocks0 ==> y in stack
    ensures ClosedBut(preds, blocks, h, stack)
  {
    forall x, y | y in blocks && y != h && y !in stack && Listed(preds, x, y) ensures x in blocks {
      if y != curr {
        assert y in blocks0 && y !in stack0 + [curr];
      }
    }
  }

  /** Adds the predecessors of one block, pushing the new ones. */
  method Expand(
      header: Label, latches: set<Label>, ghost whole: set<Label>, ps: seq<Label>, blocks0: set<Label>,
      stack0: seq<Label>)
    returns (blocks: set<Label>, stack: seq<Label>)
    requires Searching(latches, header, whole, blocks0, stack0)
    requires forall x :: x in ps ==> x in whole
    ensures Searching(latches, header, whole, blocks, stack)
    ensures blocks0 <= blocks && forall x :: x in ps ==> x in blocks
    ensures forall y :: y in stack0 ==> y in stack
    ensures forall y :: y in blocks && y !in blocks0 ==> y in stack
    ensures |whole - blocks| < |whole - blocks0| || (blocks == blocks0 && stack == stack0)
  {
    blocks, stack := blocks0, stack0;
    for k := 0 to |ps|
      invariant Searching(latches, header, whole, blocks, stack)
      invariant blocks0 <= blocks
      invariant forall i :: 0 <= i < k ==> ps[i] in blocks
      invariant forall y :: y in stack0 ==> y in stack
      invariant forall y :: y in blocks && y !in blocks0 ==> y in stack
      invariant |whole - blocks| < |whole - blocks0| || (blocks == blocks0 && stack == stack0)
    {
      if ps[k] !in blocks {
        assert ps[k] in ps;
        assert whole - (blocks + {ps[k]}) == (whole - blocks) - {ps[k]};
        blocks := blocks + {ps[k]};
        stack := stack + [ps[k]];
      }
    }
  }

  // ----- what a natural loop is like -----------------------------------------------------

  /** The header dominates every block of the loop. */
  lemma HeaderDominates(func: Function, nl: NaturalLoop, b: Label)
    requires |func.blocks| > 0 && IsNaturalLoop(func, nl) && b in nl.blocks
    ensures Dominates(func, nl.header, b)
  {
    if b != nl.header {
      var path, l :| l in nl.latches && AvoidingWalk(func, path, b, l, nl.header);
      assert BackEdge(func, l, nl.header);
      forall walk | IsPathBetween(func, walk, func.blocks[0].name, b) ensures nl.header in walk {
        var whole := walk + path[1..];
        assert IsPathBetween(func, whole, func.blocks[0].name, l) by {
          forall k | 0 <= k < |whole| - 1 ensures Edge(func, whole[k], whole[k + 1]) {
            if k < |walk| - 1 {
              assert Edge(func, walk[k], walk[k + 1]);
            } else {
              var m := k - (|walk| - 1);
              assert whole[k] == path[m] && whole[k + 1] == path[m + 1];
              assert Edge(func, path[m], path[m + 1]);
            }
          }
        }
        assert nl.header in whole;
      }
    }
  }

  /** An edge from outside enters the loop only at its header. */
  lemma SingleEntry(func: Function, nl: NaturalLoop, x: Label, y: Label)
    requires |func.blocks| > 0 && IsNaturalLoop(func, nl)
    requires Edge(func, x, y) && x !in nl.blocks && y in nl.blocks
    ensures y == nl.header
  {
    assert x in Labels(func);
    if y != nl.header {
      ReachesLatchStep(func, x, y, nl.latches, nl.header);
    }
  }

  // ----- edges that end lifetimes --------------------------------------------------------

  predicate EndsLoop(nl: NaturalLoop, from: Label, to: Label) {
    from in nl.blocks && (nl.header == to || to !in nl.blocks)
  }

  function EndingOf(loops: seq<NaturalLoop>, from: Label, to: Label): set<ValueId> {
    if loops == [] then {}
    else
      EndingOf(loops[..|loops| - 1], from, to)
      + (if EndsLoop(loops[|loops| - 1], from, to) then loops[|loops| - 1].localValues else {})
  }

  method EndingLifetimeLocals(loops: seq<NaturalLoop>, from: Label, to: Label) returns (ending: set<ValueId>)
    ensures ending == EndingOf(loops, from, to)
  {
    ending := {};
    for i := 0 to |loops|
      invariant ending == EndingOf(loops[..i], from, to)
    {
      var nl := loops[i];
      var isBackEdge := nl.header == to && from in nl.blocks;
      var isExitEdge := from in nl.blocks && to !in nl.blocks;
      if isBackEdge || isExitEdge { ending := ending + nl.localValues; }
      assert loops[..i + 1][..i] == loops[..i];
    }
    assert loops[..|loops|] == loops;
  }

  lemma {:induction false} EndingIncludes(loops: seq<NaturalLoop>, nl: NaturalLoop, from: Label, to: Label)
    requires nl in loops && EndsLoop(nl, from, to)
    ensures nl.localValues <= EndingOf(loops, from, to)
    decreases |loops|
  {
    if nl != loops[|loops| - 1] {
      assert nl in loops[..|loops| - 1];
      EndingIncludes(loops[..|loops| - 1], nl, from, to);
    }
  }

  /** A value ends on an edge only if it belongs to a loop the edge leaves or restarts. */
  lemma {:induction false} EndingOnlyFrom(loops: seq<NaturalLoop>, from: Label, to: Label, v: ValueId)
    ensures v in EndingOf(loops, from, to) <==>
      exists nl :: nl in loops && EndsLoop(nl, from, to) && v in nl.localValues
    decreases |loops|
  {
    if loops != [] {
      var init := loops[..|loops| - 1];
      EndingOnlyFrom(init, from, to, v);
      assert loops == init + [loops[|loops| - 1]];
    }
  }

  /** A walk from inside the loop that leaves it, or comes back to its header, crosses an edge
      on which every value of the loop body ends. */
  lemma LeavingEndsLocals(func: Function, loops: seq<NaturalLoop>, nl: NaturalLoop, path: seq<Label>) returns (k: nat)
    requires nl in loops
    requires IsPath(func, path) && |path| > 1 && path[0] in nl.blocks
    requires path[|path| - 1] !in nl.blocks || path[|path| - 1] == nl.header
    ensures k + 1 < |path| && nl.localValues <= EndingOf(loops, path[k], path[k + 1])
  {
    k := 0;
    while path[k + 1] in nl.blocks && path[k + 1] != nl.header
      invariant k + 1 < |path| && path[k] in nl.blocks
      decreases |path| - k
    {
      k := k + 1;
    }
    EndingIncludes(loops, nl, path[k], path[k + 1]);
  }

  // ----- finding all loops ---------------------------------------------------------------

  ghost predicate IsLatchMap(func: Function, latches: map<Label, set<Label>>)
    requires |func.blocks| > 0
  {
    && (forall h :: h in latches <==> exists u :: BackEdge(func, u, h))
    && (forall h :: h in latches ==> AreLatches(func, h, latches[h]))
  }

  ghost predicate AreLatches(func: Function, h: Label, us: set<Label>)
    requires |func.blocks| > 0
  {
    us != {} && forall u :: u in us <==> BackEdge(func, u, h)
  }

  ghost predicate InLatches(latches: map<Label, set<Label>>, u: Label, h: Label) {
    h in latches && u in latches[h]
  }

  method AddLatches(latches0: map<Label, set<Label>>, u: Label, ys: seq<Label>, doms: set<Label>)
    returns (latches: map<Label, set<Label>>)
    requires forall h :: h in latches0 ==> latches0[h] != {}
    ensures forall h :: h in latches ==> latches[h] != {}
    ensures forall x, h :: InLatches(latches, x, h) <==> InLatches(latches0, x, h) || (x == u && h in ys && h in doms)
  {
    latches := latches0;
    for k := 0 to |ys|
      invariant forall h :: h in latches ==> latches[h] != {}
      invariant forall x, h :: InLatches(latches, x, h) <==>
        InLatches(latches0, x, h) || (x == u && h in ys[..k] && h in doms)
    {
      var v := ys[k];
      if v in doms {
        latches := latches[v := (if v in latches then latches[v] else {}) + {u}];
      }
      assert ys[..k + 1] == ys[..k] + [v];
    }
    assert ys[..|ys|] == ys;
  }

  method FindLatches(func: Function, succs: EdgeMap, doms: DomMap) returns (latches: map<Label, set<Label>>)
    requires DistinctLabels(func.blocks) && |func.blocks| > 0
    requires succs.Keys == Labels(func)
    requires forall i :: 0 <= i < |func.blocks| ==> succs[func.blocks[i].name] == Successors(func.blocks[i])
    requires doms.Keys == Labels(func) && forall b :: b in doms ==> doms[b] == DominatorSet(func, b)
    ensures IsLatchMap(func, latches)
  {
    latches := map[];
    for n := 0 to |func.blocks|
      invariant forall h :: h in latches ==> latches[h] != {}
      invariant forall x, h :: InLatches(latches, x, h) <==> EdgeUpTo(func, n, x, h) && h in DominatorSet(func, x)
    {
      var u := func.blocks[n].name;
      latches := AddLatches(latches, u, succs[u], doms[u]);
      forall x, h ensures InLatches(latches, x, h) <==> EdgeUpTo(func, n + 1, x, h) && h in DominatorSet(func, x) {
        EdgeOneMore(func, n, x, h);
      }
    }
    forall x, h ensures InLatches(latches, x, h) <==> BackEdge(func, x, h) {
      assert Edge(func, x, h) <==> EdgeUpTo(func, |func.blocks|, x, h);
    }
    forall h | h in latches ensures exists u :: BackEdge(func, u, h) {
      var u :| u in latches[h];
      assert InLatches(latches, u, h);
      assert BackEdge(func, u, h);
    }
    forall h | exists u :: BackEdge(func, u, h) ensures h in latches {
      var u :| BackEdge(func, u, h);
      assert InLatches(latches, u, h);
    }
    forall h | h in latches ensures AreLatches(func, h, latches[h]) {
      forall u ensures u in latches[h] <==> BackEdge(func, u, h) {
        assert InLatches(latches, u, h) <==> BackEdge(func, u, h);
      }
    }
  }

  method CollectLocals(func: Function, body: set<Label>) returns (values: set<ValueId>)
    ensures forall v :: v in values <==>
      exists i :: 0 <= i < |func.blocks| && func.blocks[i].name in body && v in func.blocks[i].insts
  {
    values := {};
    for n := 0 to |func.blocks|
      invariant forall v :: v in values <==>
        exists i :: 0 <= i < n && func.blocks[i].name in body && v in func.blocks[i].insts
    {
      var block := func.blocks[n];
      if block.name in body {
        values := values + set v | v in block.insts;
      }
    }
  }

  ghost predicate FoundAll(func: Function, loops: seq<NaturalLoop>, headers: set<Label>)
    requires |func.blocks| > 0
  {
    && (forall i :: 0 <= i < |loops| ==> IsNaturalLoop(func, loops[i]))
    && (forall i, j :: 0 <= i < j < |loops| ==> loops[i].header != loops[j].header)
    && (forall h :: h in headers <==> exists i :: 0 <= i < |loops| && loops[i].header == h)
  }

  /** Exactly one natural loop for every target of a back edge, in an unspecified order. */
  method AnalyzeLoops(func: Function) returns (loops: seq<NaturalLoop>, ghost headers: set<Label>)
    requires DistinctLabels(func.blocks)
    ensures func.blocks == [] ==> loops == []
    ensures func.blocks != [] ==> FoundAll(func, loops, headers)
    ensures func.blocks != [] ==> forall h :: h in headers <==> exists u :: BackEdge(func, u, h)
  {
    if func.blocks == [] { return [], {}; }
    var preds, succs := ComputeCfgEdges(func);
    var doms := ComputeDominators(func, preds);
    var latches := FindLatches(func, succs, doms);
    headers := latches.Keys;
    loops := BuildLoops(func, preds, latches);
  }

  method BuildLoops(func: Function, preds: EdgeMap, latches: map<Label, set<Label>>) returns (loops: seq<NaturalLoop>)
    requires |func.blocks| > 0 && IsPreds(func, preds)
    requires forall h :: h in latches ==> AreLatches(func, h, latches[h])
    ensures FoundAll(func, loops, latches.Keys)
  {
    hide IsNaturalLoop;
    loops := [];
    var todo := latches.Keys;
    ghost var done: set<Label> := {};
    while todo != {}
      invariant todo + done == latches.Keys && todo !! done
      invariant FoundAll(func, loops, done)
      decreases todo
    {
      var h :| h in todo;
      todo := todo - {h};
      var nl := BuildLoop(func, preds, h, latches[h]);
      FoundOneMore(func, loops, nl, done);
      loops, done := loops + [nl], done + {h};
    }
    assert done == latches.Keys;
  }

  lemma FoundOneMore(func: Function, loops: seq<NaturalLoop>, nl: NaturalLoop, headers: set<Label>)
    requires |func.blocks| > 0 && FoundAll(func, loops, headers)
    requires IsNaturalLoop(func, nl) && nl.header !in headers
    ensures FoundAll(func, loops + [nl], headers + {nl.header})
  {
    var loops' := loops + [nl];
    forall h ensures h in headers + {nl.header} <==> exists i :: 0 <= i < |loops'| && loops'[i].header == h {
      if h in headers {
        var i :| 0 <= i < |loops| && loops[i].header == h;
        assert loops'[i].header == h;
      } else if h == nl.header {
        assert loops'[|loops|].header == h;
      }
    }
  }

  method BuildLoop(func: Function, preds: EdgeMap, h: Label, latches: set<Label>) returns (nl: NaturalLoop)
    requires |func.blocks| > 0 && IsPreds(func, preds)
    requires AreLatches(func, h, latches)
    ensures nl.header == h && IsNaturalLoop(func, nl)
  {
    var latch :| latch in latches;
    assert BackEdge(func, latch, h);
    forall u | u in latches ensures u in Labels(func) {
      assert Edge(func, u, h);
    }
    var blocks := LoopBlocks(func, preds, h, latches);
    var body := set b | b in blocks && b != h;
    var values := CollectLocals(func, body);
    nl := NaturalLoop(h, latches, blocks, body, values);
    assert body == blocks - {h};
  }
}
