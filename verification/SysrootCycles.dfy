/** The sort as its callers see it: an order, or a cycle found by a depth-first search among
    the nodes that could not be emitted. */
module SysrootCycles {
  import opened Wrappers
  import opened Names
  import opened SysrootBuilder

  function BlockedDeps(blocked: set<Name>, deps: seq<Name>): (r: seq<Name>)
    ensures forall d :: d in r <==> d in deps && d in blocked
  {
    if deps == [] then []
    else if deps[0] in blocked then [deps[0]] + BlockedDeps(blocked, deps[1..])
    else BlockedDeps(blocked, deps[1..])
  }

  /** `done` contains the blocked dependencies of each of its nodes. */
  ghost predicate Closed(g: Graph, blocked: set<Name>, done: set<Name>) {
    forall n, d :: n in done && d in blocked && DependsOn(g, n, d) ==> d in done
  }

  /** From a node of a closed set a walk never leaves the set. */
  lemma {:induction false} WalkStaysIn(g: Graph, blocked: set<Name>, done: set<Name>, c: seq<Name>, i: nat, j: nat)
    requires Closed(g, blocked, done) && ClosedWalk(g, blocked, c)
    requires i <= j < |c| && c[i] in done
    ensures c[j] in done
    decreases j - i
  {
    if i < j {
      assert DependsOn(g, c[i], c[i + 1]);
      WalkStaysIn(g, blocked, done, c, i + 1, j);
    }
  }

  /** A node all of whose blocked dependencies are finished is on no cycle of finished nodes. */
  lemma {:induction false} FinishedIsAcyclic(g: Graph, blocked: set<Name>, done: set<Name>, n: Name)
    requires done <= blocked && n in blocked && n !in done
    requires Closed(g, blocked, done) && Acyclic(g, done)
    requires forall d :: d in blocked && DependsOn(g, n, d) ==> d in done
    ensures Acyclic(g, done + {n}) && Closed(g, blocked, done + {n})
  {
    forall c ensures !ClosedWalk(g, done + {n}, c) {
      if ClosedWalk(g, done + {n}, c) {
        assert ClosedWalk(g, blocked, c);
        if i :| 0 <= i < |c| - 1 && c[i] == n {
          assert DependsOn(g, c[i], c[i + 1]);
          WalkStaysIn(g, blocked, done, c, i + 1, |c| - 1);
          WalkStaysIn(g, blocked, done, c, 0, i);
          assert false;
        } else {
          assert ClosedWalk(g, done, c);
        }
      }
    }
  }

  class CycleSearch {
    var visited: set<Name>
    var inStack: set<Name>
    var stack: seq<Name>

    ghost predicate Valid(g: Graph, blocked: set<Name>)
      reads this
    {
      && inStack == Elements(stack) && inStack !! visited
      && (stack == [] || SimpleWalk(g, blocked, stack))
      && Finished(g, blocked, visited)
    }

    constructor ()
      ensures visited == {} && inStack == {} && stack == []
    {
      visited, inStack, stack := {}, {}, [];
    }

    /** Follows the blocked dependencies of `current`, least name first, until one of them is on
        the stack. Finding none, it leaves the stack as it was and `current` finished. */
    method Dfs(g: Graph, blocked: set<Name>, current: Name) returns (found: Option<seq<Name>>)
      requires Valid(g, blocked) && blocked <= g.Keys
      requires current in blocked && current !in visited && current !in inStack
      requires stack != [] ==> DependsOn(g, stack[|stack| - 1], current)
      modifies this
      ensures found.Some? ==> SimpleCycle(g, blocked, found.value)
      ensures found.None? ==> Valid(g, blocked) && stack == old(stack) && old(visited) + {current} <= visited
      decreases blocked - visited - inStack
    {
      hide ClosedWalk, Acyclic, SimpleWalk, SimpleCycle;
      PushWalk(g, blocked, stack, current);
      stack := stack + [current];
      inStack := inStack + {current};
      var deps := Sort(BlockedDeps(blocked, g[current]));
      var i := 0;
      while i < |deps|
        invariant 0 <= i <= |deps|
        invariant Valid(g, blocked) && stack == old(stack) + [current] && old(visited) <= visited
        invariant forall d :: d in deps[..i] ==> d in visited
        decreases |deps| - i
      {
        var dep := deps[i];
        assert DependsOn(g, current, dep);
        if dep in inStack {
          var start := Position(stack, dep);
          CloseWalk(g, blocked, stack, start);
          found := Some(stack[start..] + [dep]);
          return;
        }
        if dep !in visited {
          var inner := Dfs(g, blocked, dep);
          if inner.Some? {
            found := inner;
            return;
          }
        }
        assert deps[..i + 1] == deps[..i] + [dep];
        i := i + 1;
      }
      assert deps[..i] == deps;
      FinishedIsAcyclic(g, blocked, visited, current);
      inStack := inStack - {current};
      stack := stack[..|stack| - 1];
      visited := visited + {current};
      found := None;
    }
  }

  /** Nodes the search is done with: no cycle runs through them. */
  ghost predicate Finished(g: Graph, blocked: set<Name>, done: set<Name>) {
    done <= blocked && Closed(g, blocked, done) && Acyclic(g, done)
  }

  lemma PushWalk(g: Graph, blocked: set<Name>, stack: seq<Name>, current: Name)
    requires current in blocked && current in g && current !in Elements(stack)
    requires stack == [] || (SimpleWalk(g, blocked, stack) && DependsOn(g, stack[|stack| - 1], current))
    ensures SimpleWalk(g, blocked, stack + [current])
    ensures Elements(stack + [current]) == Elements(stack) + {current}
  {
    if stack != [] {
      ExtendWalk(g, blocked, stack, current);
    }
  }

  method Position(s: seq<Name>, n: Name) returns (p: nat)
    requires n in s
    ensures p < |s| && s[p] == n && n !in s[..p]
  {
    p := 0;
    while s[p] != n
      invariant p < |s| && n !in s[..p]
      decreases |s| - p
    {
      assert s[..p + 1] == s[..p] + [s[p]];
      assert s == s[..p + 1] + s[p + 1..];
      p := p + 1;
    }
  }

  /** All blocked nodes in order: what is reported when there is no cycle to report. */
  ghost predicate ListsAll(blocked: set<Name>, nodes: seq<Name>) {
    SortedNames(nodes) && NoRepeats(nodes) && Elements(nodes) == blocked
  }

  ghost predicate Reports(g: Graph, blocked: set<Name>, nodes: seq<Name>) {
    if Acyclic(g, blocked) then ListsAll(blocked, nodes) else SimpleCycle(g, blocked, nodes)
  }

  method ListInOrder(s: set<Name>) returns (nodes: seq<Name>)
    ensures ListsAll(s, nodes)
  {
    nodes := [];
    var rest := s;
    while rest != {}
      invariant rest <= s && Elements(nodes) == s - rest && SortedNames(nodes) && NoRepeats(nodes)
      invariant forall n, m :: n in nodes && m in rest ==> LessEq(n, m)
      decreases rest
    {
      var n := First(rest);
      assert n !in Elements(nodes);
      assert Elements(nodes + [n]) == Elements(nodes) + {n};
      rest, nodes := rest - {n}, nodes + [n];
    }
  }

  /** Returns a cycle among `blocked` that meets no node twice, and lists all of `blocked` only
      when there is none. */
  method ReconstructCycle(g: Graph, blocked: set<Name>) returns (nodes: seq<Name>)
    requires blocked <= g.Keys
    ensures Reports(g, blocked, nodes)
  {
    var search := new CycleSearch();
    var rest := blocked;
    assert Elements([]) == {};
    while rest != {}
      invariant search.Valid(g, blocked) && search.stack == []
      invariant rest <= blocked && blocked - rest <= search.visited
      invariant fresh(search)
      decreases rest
    {
      var start := First(rest);
      rest := rest - {start};
      if start !in search.visited {
        var found := search.Dfs(g, blocked, start);
        if found.Some? {
          assert ClosedWalk(g, blocked, found.value);
          return found.value;
        }
      }
    }
    assert search.visited == blocked;
    nodes := ListInOrder(blocked);
  }

  /** `emitted` came out, and nothing else could. */
  ghost predicate StuckAfter(g: Graph, emitted: seq<Name>) {
    Emitted(g, emitted) && Elements(emitted) != g.Keys && forall n :: !CanGo(g, Elements(emitted), n)
  }

  ghost predicate RepeatsNone(g: Graph) {
    forall n :: n in g ==> DupFree(g, n)
  }

  ghost predicate LeastOrder(g: Graph, order: seq<Name>) {
    TopologicalOrder(g, order) && forall q :: TopologicalOrder(g, q) ==> LexLeq(order, q)
  }

  /** Succeeds exactly on an acyclic graph none of whose keys repeats a known dependency, and
      then with the least of all topological orders. Otherwise the report is a simple cycle
      among the nodes that could not be emitted, if there is one among them. */
  method TopologicalSort(g: Graph) returns (r: SortResult)
    ensures r.Ordered? <==> Acyclic(g, g.Keys) && RepeatsNone(g)
    ensures r.Ordered? ==> LeastOrder(g, r.order)
    ensures r.Cycle? ==> exists emitted ::
      StuckAfter(g, emitted) && Reports(g, g.Keys - Elements(emitted), r.nodes)
    ensures r.Cycle? && RepeatsNone(g) ==> SimpleCycle(g, g.Keys, r.nodes)
  {
    var result := EmitReady(g);
    CountDecides(g, result);
    if |result| != |g| {
      var blocked := set n | n in g && n !in result;
      assert blocked == g.Keys - Elements(result);
      var nodes := ReconstructCycle(g, blocked);
      assert StuckAfter(g, result);
      StuckReport(g, result, nodes);
      return Cycle(nodes);
    }
    CompleteIsOrder(g, result);
    forall q | TopologicalOrder(g, q) ensures LexLeq(result, q) {
      GreedyIsLeast(g, result, q);
    }
    return Ordered(result);
  }

  lemma StuckReport(g: Graph, emitted: seq<Name>, nodes: seq<Name>)
    requires StuckAfter(g, emitted) && Reports(g, g.Keys - Elements(emitted), nodes)
    ensures RepeatsNone(g) ==> SimpleCycle(g, g.Keys, nodes) && !Acyclic(g, g.Keys)
  {
    if RepeatsNone(g) {
      EmittedIsInGraph(g, emitted);
      StuckHasReason(g, emitted);
    }
  }

  lemma EmittedIsInGraph(g: Graph, emitted: seq<Name>)
    requires StuckAfter(g, emitted)
    ensures g.Keys - Elements(emitted) != {}
  {
    CountDecides(g, emitted);
    if g.Keys - Elements(emitted) == {} {
      forall n | n in g.Keys ensures n in Elements(emitted) {
        assert n !in g.Keys - Elements(emitted);
      }
    }
  }

  /** The sort fails on an acyclic graph in which `b` lists its dependency `a` twice, and what it
      reports is no cycle: not even a closed walk. */
  lemma RepeatedDependency(emitted: seq<Name>, nodes: seq<Name>)
    ensures var g := map["a" := [], "b" := ["a", "a"]];
            && Acyclic(g, g.Keys) && !RepeatsNone(g)
            && (Reports(g, g.Keys - Elements(emitted), nodes) ==> !ClosedWalk(g, g.Keys, nodes))
  {
    var g: Graph := map["a" := [], "b" := ["a", "a"]];
    var order := ["a", "b"];
    assert order[..0] == [] && order[..1] == ["a"];
    forall c ensures !ClosedWalk(g, g.Keys, c) {
      OrderedIsAcyclic(g, order, c);
    }
    assert ValidDeps(g, ["a"]) == ["a"];
    assert ValidDeps(g, g["b"]) == ["a", "a"];
    assert !DupFree(g, "b");
  }
}
