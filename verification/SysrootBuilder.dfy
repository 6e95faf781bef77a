/** The build order of providers: a topological sort with a lexicographic tie-break, and the
    extraction of a cycle when there is no such order. */
module SysrootBuilder {
  import opened Names
  import Sets

  /** Dependencies by name; names that are not keys are ignored. */
  type Graph = map<Name, seq<Name>>

  datatype SortResult = Ordered(order: seq<Name>) | Cycle(nodes: seq<Name>)

  function ValidDeps(g: Graph, deps: seq<Name>): seq<Name> {
    if deps == [] then []
    else if deps[0] in g then [deps[0]] + ValidDeps(g, deps[1..])
    else ValidDeps(g, deps[1..])
  }

  lemma {:induction false} ValidDepsAre(g: Graph, deps: seq<Name>, d: Name)
    ensures d in ValidDeps(g, deps) <==> d in deps && d in g
  {
    if deps != [] {
      ValidDepsAre(g, deps[1..], d);
      assert deps == [deps[0]] + deps[1..];
    }
  }

  /** `n` lists none of its known dependencies twice. */
  ghost predicate DupFree(g: Graph, n: Name)
    requires n in g
  {
    NoRepeats(ValidDeps(g, g[n]))
  }

  // ----- orders and cycles ---------------------------------------------------------------

  predicate DependsOn(g: Graph, n: Name, d: Name) {
    n in g && d in g && d in g[n]
  }

  /** A closed walk of at least one step inside `within`. */
  ghost predicate ClosedWalk(g: Graph, within: set<Name>, c: seq<Name>) {
    && |c| >= 2 && c[0] == c[|c| - 1]
    && (forall i :: 0 <= i < |c| ==> c[i] in within && c[i] in g)
    && (forall i :: 0 <= i < |c| - 1 ==> DependsOn(g, c[i], c[i + 1]))
  }

  /** A closed walk that meets no node twice, except where it closes. */
  ghost predicate SimpleCycle(g: Graph, within: set<Name>, c: seq<Name>) {
    ClosedWalk(g, within, c) && NoRepeats(c[..|c| - 1])
  }

  ghost predicate Acyclic(g: Graph, within: set<Name>) {
    forall c :: !ClosedWalk(g, within, c)
  }

  /** All keys once each, every known dependency before what depends on it. */
  ghost predicate TopologicalOrder(g: Graph, r: seq<Name>) {
    && NoRepeats(r)
    && (forall n :: n in r <==> n in g)
    && forall i, d :: 0 <= i < |r| && DependsOn(g, r[i], d) ==> d in r[..i]
  }

  /** `n` can come next after the nodes in `done`. */
  ghost predicate Ready(g: Graph, done: set<Name>, n: Name) {
    n in g && n !in done && forall d :: DependsOn(g, n, d) ==> d in done
  }

  /** At every position the least of the nodes that can come next. */
  ghost predicate Greedy(g: Graph, r: seq<Name>) {
    forall i, n :: 0 <= i < |r| && Ready(g, Elements(r[..i]), n) ==> LessEq(r[i], n)
  }

  /** At the first position where the two differ, `r` has the lesser name. */
  ghost predicate LexLeq(r: seq<Name>, q: seq<Name>) {
    r == q || exists i :: 0 <= i < |r| && i < |q| && r[..i] == q[..i] && Less(r[i], q[i])
  }

  lemma NextIsReady(g: Graph, q: seq<Name>, i: nat)
    requires TopologicalOrder(g, q) && i < |q|
    ensures Ready(g, Elements(q[..i]), q[i])
  {
    assert q[i] in q;
  }

  lemma {:induction false} FirstDifference(r: seq<Name>, q: seq<Name>) returns (i: nat)
    requires r != q && |r| == |q|
    ensures i < |r| && r[..i] == q[..i] && r[i] != q[i]
  {
    if r[0] != q[0] {
      i := 0;
    } else {
      assert r == [r[0]] + r[1..] && q == [q[0]] + q[1..];
      var k := FirstDifference(r[1..], q[1..]);
      i := k + 1;
      assert r[..i] == [r[0]] + r[1..][..k] && q[..i] == [q[0]] + q[1..][..k];
    }
  }

  lemma OrdersHaveEqualLength(g: Graph, r: seq<Name>)
    requires TopologicalOrder(g, r)
    ensures |r| == |g|
  {
    ElementCount(r);
    assert Elements(r) == g.Keys;
  }

  /** A greedy topological order is the lexicographically least one. */
  lemma GreedyIsLeast(g: Graph, r: seq<Name>, q: seq<Name>)
    requires TopologicalOrder(g, r) && Greedy(g, r) && TopologicalOrder(g, q)
    ensures LexLeq(r, q)
  {
    if r != q {
      OrdersHaveEqualLength(g, r);
      OrdersHaveEqualLength(g, q);
      var i := FirstDifference(r, q);
      NextIsReady(g, q, i);
      assert Ready(g, Elements(r[..i]), q[i]);
    }
  }

  /** A graph with a topological order has no cycle. */
  lemma {:induction false} OrderedIsAcyclic(g: Graph, r: seq<Name>, c: seq<Name>)
    requires TopologicalOrder(g, r)
    ensures !ClosedWalk(g, g.Keys, c)
  {
    if ClosedWalk(g, g.Keys, c) {
      var p := PositionOf(r, c[0]);
      var q := WalkDescends(g, r, c, p);
      assert false;
    }
  }

  lemma PositionOf(r: seq<Name>, n: Name) returns (p: nat)
    requires n in r
    ensures p < |r| && r[p] == n
  {
    p :| 0 <= p < |r| && r[p] == n;
  }

  lemma {:induction false} WalkDescends(g: Graph, r: seq<Name>, c: seq<Name>, p: nat) returns (q: nat)
    requires TopologicalOrder(g, r)
    requires |c| >= 2 && p < |r| && r[p] == c[0]
    requires forall i :: 0 <= i < |c| - 1 ==> DependsOn(g, c[i], c[i + 1])
    ensures q < p && r[q] == c[|c| - 1]
    decreases |c|
  {
    assert DependsOn(g, r[p], c[1]);
    assert c[1] in r[..p];
    q :| 0 <= q < p && r[..p][q] == c[1];
    if |c| > 2 {
      q := WalkDescends(g, r, c[1..], q);
    }
  }

  // ----- the sort ------------------------------------------------------------------------

  /** Dependencies of `n` already emitted. */
  function Met(g: Graph, n: Name, done: set<Name>): set<Name>
    requires n in g
  {
    set d | d in ValidDeps(g, g[n]) && d in done
  }

  /** Counters hold the listed dependencies minus the distinct ones already emitted. */
  ghost predicate CountersRight(g: Graph, inDegree: map<Name, nat>, done: set<Name>) {
    && inDegree.Keys == g.Keys
    && forall n :: n in g && n !in done ==>
         inDegree[n] + |Met(g, n, done)| == |ValidDeps(g, g[n])|
  }

  ghost predicate CanGo(g: Graph, done: set<Name>, n: Name) {
    n in g && DupFree(g, n) && Ready(g, done, n)
  }

  lemma CounterZeroMeansReady(g: Graph, n: Name, count: nat, done: set<Name>)
    requires n in g && n !in done
    requires count + |Met(g, n, done)| == |ValidDeps(g, g[n])|
    ensures count == 0 <==> CanGo(g, done, n)
  {
    var deps := ValidDeps(g, g[n]);
    ElementCount(deps);
    assert Met(g, n, done) <= Elements(deps);
    Sets.SubsetSize(Met(g, n, done), Elements(deps));
    forall d ensures d in deps <==> DependsOn(g, n, d) {
      ValidDepsAre(g, g[n], d);
    }
    if count == 0 {
      assert Met(g, n, done) == Elements(deps);
      forall d | DependsOn(g, n, d) ensures d in done {
        assert d in Elements(deps);
      }
    }
    if CanGo(g, done, n) {
      assert Met(g, n, done) == Elements(deps);
    }
  }

  /** Every node came when it could, and came before any greater name that could. */
  ghost predicate Emitted(g: Graph, result: seq<Name>) {
    forall i :: 0 <= i < |result| ==> EmittedAt(g, result, i)
  }

  ghost predicate EmittedAt(g: Graph, result: seq<Name>, i: nat)
    requires i < |result|
  {
    var done := Elements(result[..i]);
    CanGo(g, done, result[i]) && forall n :: CanGo(g, done, n) ==> LessEq(result[i], n)
  }

  lemma {:induction false} EmittedNoRepeats(g: Graph, result: seq<Name>)
    requires Emitted(g, result)
    ensures NoRepeats(result)
  {
    forall i, j | 0 <= i < j < |result| ensures result[i] != result[j] {
      assert EmittedAt(g, result, j);
      assert result[i] in result[..j];
    }
  }

  lemma EmitOne(g: Graph, result: seq<Name>, node: Name)
    requires Emitted(g, result)
    requires CanGo(g, Elements(result), node) && forall n :: CanGo(g, Elements(result), n) ==> LessEq(node, n)
    ensures Emitted(g, result + [node])
    ensures Elements(result + [node]) == Elements(result) + {node} && node !in Elements(result)
  {
    var longer := result + [node];
    forall i | 0 <= i < |longer| ensures EmittedAt(g, longer, i) {
      if i < |result| {
        assert EmittedAt(g, result, i);
        assert longer[..i] == result[..i];
      } else {
        assert longer[..i] == result;
      }
    }
  }

  lemma EmittedIsClosed(g: Graph, result: seq<Name>)
    requires Emitted(g, result)
    ensures ClosedUnderDeps(g, Elements(result))
    ensures forall n :: n in Elements(result) ==> n in g && DupFree(g, n)
  {
    forall n | n in Elements(result)
      ensures n in g && DupFree(g, n) && forall d :: DependsOn(g, n, d) ==> d in Elements(result)
    {
      var i :| 0 <= i < |result| && result[i] == n;
      assert EmittedAt(g, result, i);
      forall d | DependsOn(g, n, d) ensures d in Elements(result) {
        assert d in Elements(result[..i]);
      }
    }
  }

  method CountDependencies(g: Graph) returns (inDegree: map<Name, nat>)
    ensures CountersRight(g, inDegree, {})
  {
    inDegree := map n | n in g :: 0;
    var todo := g.Keys;
    while todo != {}
      invariant todo <= g.Keys && inDegree.Keys == g.Keys
      invariant forall n :: n in g && n !in todo ==> inDegree[n] == |ValidDeps(g, g[n])|
      decreases todo
    {
      var n :| n in todo;
      todo := todo - {n};
      inDegree := inDegree[n := |ValidDeps(g, g[n])|];
    }
    forall n | n in g ensures inDegree[n] + |Met(g, n, {})| == |ValidDeps(g, g[n])| {
      assert Met(g, n, {}) == {};
    }
  }

  lemma MetOneMore(g: Graph, n: Name, done: set<Name>, node: Name)
    requires n in g && node in g && node !in done
    ensures |Met(g, n, done + {node})| == |Met(g, n, done)| + (if node in g[n] then 1 else 0)
  {
    ValidDepsAre(g, g[n], node);
    if node in g[n] {
      assert Met(g, n, done + {node}) == Met(g, n, done) + {node};
    } else {
      assert Met(g, n, done + {node}) == Met(g, n, done);
    }
  }

  lemma MetWithinDeps(g: Graph, n: Name, done: set<Name>)
    requires n in g
    ensures |Met(g, n, done)| <= |ValidDeps(g, g[n])|
  {
    ElementCount(ValidDeps(g, g[n]));
    Sets.SubsetSize(Met(g, n, done), Elements(ValidDeps(g, g[n])));
  }

  /** What has been emitted is closed under dependencies. */
  ghost predicate ClosedUnderDeps(g: Graph, done: set<Name>) {
    forall n, d :: n in done && DependsOn(g, n, d) ==> d in done
  }

  /** Counts `node` off at everything that depends on it, queueing what drops to zero. */
  method CountOff(g: Graph, inDegree0: map<Name, nat>, queue0: set<Name>, ghost done: set<Name>, node: Name)
    returns (inDegree: map<Name, nat>, queue: set<Name>)
    requires CountersRight(g, inDegree0, done) && CanGo(g, done, node) && ClosedUnderDeps(g, done)
    requires forall n :: n in queue0 <==> n != node && CanGo(g, done, n)
    ensures CountersRight(g, inDegree, done + {node})
    ensures forall n :: n in queue <==> CanGo(g, done + {node}, n)
  {
    inDegree, queue := inDegree0, queue0;
    var successors := set n | n in g && node in g[n];
    var todo := successors;
    while todo != {}
      invariant todo <= successors && inDegree.Keys == g.Keys
      invariant forall n :: n in g && (n !in successors || n in todo) ==> inDegree[n] == inDegree0[n]
      invariant forall n :: n in successors && n !in todo ==>
        inDegree[n] == if inDegree0[n] == 0 then 0 else inDegree0[n] - 1
      invariant forall n :: n in queue <==> n in queue0 || (n in successors && n !in todo && inDegree[n] == 0)
      decreases todo
    {
      var n :| n in todo;
      todo := todo - {n};
      var count := if inDegree[n] == 0 then 0 else inDegree[n] - 1;
      inDegree := inDegree[n := count];
      if count == 0 { queue := queue + {n}; }
    }
    forall n ensures n in queue <==> CanGo(g, done + {node}, n)
      ensures n in g && n !in done + {node} ==> inDegree[n] + |Met(g, n, done + {node})| == |ValidDeps(g, g[n])|
    {
      if n in g {
        CountedOff(g, inDegree0[n], inDegree[n], n in queue0, n in queue, done, node, n);
      }
    }
  }

  /** The counter and the queue entry of one node after `node` has been counted off. */
  lemma CountedOff(
      g: Graph, count0: nat, count: nat, queued0: bool, queued: bool, done: set<Name>, node: Name, n: Name)
    requires n in g && CanGo(g, done, node) && ClosedUnderDeps(g, done)
    requires n !in done ==> count0 + |Met(g, n, done)| == |ValidDeps(g, g[n])|
    requires queued0 <==> n != node && CanGo(g, done, n)
    requires count == if node !in g[n] then count0 else if count0 == 0 then 0 else count0 - 1
    requires queued <==> queued0 || (node in g[n] && count == 0)
    ensures n !in done + {node} ==> count + |Met(g, n, done + {node})| == |ValidDeps(g, g[n])|
    ensures queued <==> CanGo(g, done + {node}, n)
  {
    if n in done + {node} {
      if DependsOn(g, n, node) {
        assert false;
      }
    } else {
      MetOneMore(g, n, done, node);
      MetWithinDeps(g, n, done + {node});
      CounterZeroMeansReady(g, n, count, done + {node});
      CounterZeroMeansReady(g, n, count0, done);
      assert node in g[n] ==> DependsOn(g, n, node);
    }
  }

  /** Emits every node it can, least name first. */
  method EmitReady(g: Graph) returns (result: seq<Name>)
    ensures Emitted(g, result)
    ensures forall n :: !CanGo(g, Elements(result), n)
  {
    var inDegree := CountDependencies(g);
    var queue := set n | n in g && inDegree[n] == 0;
    result := [];
    assert Elements(result) == {};
    forall n | n in g ensures n in queue <==> CanGo(g, {}, n) {
      CounterZeroMeansReady(g, n, inDegree[n], {});
    }
    ghost var done: set<Name> := {};
    while queue != {}
      invariant Emitted(g, result) && done == Elements(result) && done <= g.Keys
      invariant CountersRight(g, inDegree, done)
      invariant forall n :: n in queue <==> CanGo(g, done, n)
      decreases g.Keys - done
    {
      var node := First(queue);
      EmittedIsClosed(g, result);
      EmitOne(g, result, node);
      inDegree, queue := CountOff(g, inDegree, queue - {node}, done, node);
      result, done := result + [node], done + {node};
    }
  }

  // ----- why the rest is blocked ---------------------------------------------------------

  ghost predicate HasBlockedDep(g: Graph, blocked: set<Name>, n: Name) {
    exists d :: d in blocked && DependsOn(g, n, d)
  }

  /** Every node of `blocked` depends on a node of `blocked`. */
  ghost predicate AllBlocked(g: Graph, blocked: set<Name>) {
    forall n {:trigger HasBlockedDep(g, blocked, n)} :: n in blocked ==> HasBlockedDep(g, blocked, n)
  }

  /** A repeat-free walk inside `within`. */
  ghost predicate SimpleWalk(g: Graph, within: set<Name>, walk: seq<Name>) {
    && |walk| > 0 && NoRepeats(walk)
    && (forall i :: 0 <= i < |walk| ==> walk[i] in within && walk[i] in g)
    && (forall i :: 0 <= i < |walk| - 1 ==> DependsOn(g, walk[i], walk[i + 1]))
  }

  /** A walk whose last node depends on one of its nodes closes a simple cycle. */
  lemma CloseWalk(g: Graph, within: set<Name>, walk: seq<Name>, i: nat)
    requires SimpleWalk(g, within, walk) && i < |walk|
    requires DependsOn(g, walk[|walk| - 1], walk[i])
    ensures SimpleCycle(g, within, walk[i..] + [walk[i]])
  {
    var c := walk[i..] + [walk[i]];
    assert c[..|c| - 1] == walk[i..];
    forall k | 0 <= k < |c| - 1 ensures DependsOn(g, c[k], c[k + 1]) {
      if k < |c| - 2 {
        assert DependsOn(g, walk[i + k], walk[i + k + 1]);
      }
    }
  }

  lemma ExtendWalk(g: Graph, within: set<Name>, walk: seq<Name>, d: Name)
    requires SimpleWalk(g, within, walk) && d in within && d !in walk
    requires DependsOn(g, walk[|walk| - 1], d)
    ensures SimpleWalk(g, within, walk + [d])
    ensures within - Elements(walk + [d]) < within - Elements(walk)
  {
    var longer := walk + [d];
    forall k | 0 <= k < |longer| - 1 ensures DependsOn(g, longer[k], longer[k + 1]) {
      if k < |walk| - 1 {
        assert DependsOn(g, walk[k], walk[k + 1]);
      }
    }
    assert Elements(longer) == Elements(walk) + {d};
  }

  lemma {:induction false} BlockedHasCycle(g: Graph, blocked: set<Name>, walk: seq<Name>) returns (c: seq<Name>)
    requires AllBlocked(g, blocked) && SimpleWalk(g, blocked, walk)
    ensures ClosedWalk(g, blocked, c)
    decreases blocked - Elements(walk)
  {
    var last := walk[|walk| - 1];
    assert HasBlockedDep(g, blocked, last);
    var d :| d in blocked && DependsOn(g, last, d);
    if d in walk {
      var i :| 0 <= i < |walk| && walk[i] == d;
      CloseWalk(g, blocked, walk, i);
      c := walk[i..] + [walk[i]];
    } else {
      ExtendWalk(g, blocked, walk, d);
      c := BlockedHasCycle(g, blocked, walk + [d]);
    }
  }

  lemma SmallerWithin(g: Graph, a: set<Name>, b: set<Name>)
    requires a <= b && Acyclic(g, b)
    ensures Acyclic(g, a)
  {
    forall c ensures !ClosedWalk(g, a, c) {
      if ClosedWalk(g, a, c) { assert ClosedWalk(g, b, c); }
    }
  }

  /** If nothing can go and no key repeats a dependency, every remaining node is blocked by a
      remaining one. */
  lemma StuckIsBlocked(g: Graph, done: set<Name>)
    requires forall n :: !CanGo(g, done, n)
    requires forall n :: n in g ==> DupFree(g, n)
    ensures AllBlocked(g, g.Keys - done)
  {
    var blocked := g.Keys - done;
    forall n | n in blocked ensures HasBlockedDep(g, blocked, n) {
      assert !CanGo(g, done, n);
      var d :| DependsOn(g, n, d) && d !in done;
      assert d in blocked;
    }
  }

  /** Everything has been emitted: the result is the order asked for. */
  lemma CompleteIsOrder(g: Graph, result: seq<Name>)
    requires Emitted(g, result) && Elements(result) == g.Keys
    ensures TopologicalOrder(g, result) && Greedy(g, result)
    ensures Acyclic(g, g.Keys) && forall n :: n in g ==> DupFree(g, n)
  {
    EmittedNoRepeats(g, result);
    EmittedIsClosed(g, result);
    forall n ensures n in result <==> n in g {
      assert n in Elements(result) <==> n in g.Keys;
    }
    forall i, d | 0 <= i < |result| && DependsOn(g, result[i], d) ensures d in result[..i] {
      assert EmittedAt(g, result, i);
      assert d in Elements(result[..i]);
    }
    forall i, n | 0 <= i < |result| && Ready(g, Elements(result[..i]), n) ensures LessEq(result[i], n) {
      assert EmittedAt(g, result, i);
      assert CanGo(g, Elements(result[..i]), n);
    }
    forall c ensures !ClosedWalk(g, g.Keys, c) {
      OrderedIsAcyclic(g, result, c);
    }
  }

  /** Nothing more can be emitted: some key repeats a dependency, or there is a cycle among the
      keys that are left. */
  lemma StuckHasReason(g: Graph, result: seq<Name>)
    requires forall n :: !CanGo(g, Elements(result), n)
    requires g.Keys - Elements(result) != {}
    requires forall n :: n in g ==> DupFree(g, n)
    ensures !Acyclic(g, g.Keys - Elements(result)) && !Acyclic(g, g.Keys)
  {
    var blocked := g.Keys - Elements(result);
    StuckIsBlocked(g, Elements(result));
    var n :| n in blocked;
    var c := BlockedHasCycle(g, blocked, [n]);
    if Acyclic(g, g.Keys) {
      SmallerWithin(g, blocked, g.Keys);
    }
  }

  lemma CountDecides(g: Graph, result: seq<Name>)
    requires Emitted(g, result)
    ensures |result| == |g| <==> Elements(result) == g.Keys
    ensures Elements(result) <= g.Keys
  {
    EmittedNoRepeats(g, result);
    EmittedIsClosed(g, result);
    ElementCount(result);
    Sets.SubsetSize(Elements(result), g.Keys);
  }
}
