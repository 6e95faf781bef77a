/** One run of effect inference: the taints' fixpoint ends, what is noted is exact about returns,
    and no table entry matters but those of the functions called. */
module EffectRun {
  import opened Wrappers
  import opened Mvir
  import Sets
  import opened Effects
  import opened ForwardDataflow
  import opened EffectTaints
  import opened EffectSoundness
  import opened EffectSummaries

  // ----- what the summary depends on -----------------------------------------------------

  /** A block of the function lists a direct call of `callee`. */
  ghost predicate CallsFunction(func: Function, callee: string) {
    exists v :: 0 <= v < |func.values| && IsListed(func, v) && func.values[v].CallDirect?
      && func.values[v].callee == callee
  }

  /** The two tables agree on every function that is called directly. */
  ghost predicate AgreeOnCalls(env: Env, other: Env) {
    && env.func == other.func && env.returnsBorrow == other.returnsBorrow
    && forall callee :: CallsFunction(env.func, callee) ==>
         (callee in env.table <==> callee in other.table)
           && (callee in env.table ==> env.table[callee] == other.table[callee])
  }

  lemma TransferDepends(env: Env, other: Env, id: ValueId, st: TaintState)
    requires AgreeOnCalls(env, other) && IsListed(env.func, id)
    ensures Transfer(env, id, st) == Transfer(other, id, st)
  {
    hide Returned, Copied;
    if id < |env.func.values| && env.func.values[id].CallDirect? {
      assert CallsFunction(env.func, env.func.values[id].callee);
    }
  }

  lemma {:induction false} OnEachAlike(m: Taints, args: seq<Operand>, i: nat, f: nat -> ArgEffect, g: nat -> ArgEffect)
    requires forall k :: f(k) == g(k)
    ensures OnEach(m, args, i, f) == OnEach(m, args, i, g)
    decreases |args|
  {
    if args != [] { OnEachAlike(m, args[..|args| - 1], i, f, g); }
  }

  lemma EffectDepends(env: Env, other: Env, id: ValueId, st: TaintState, i: nat)
    requires AgreeOnCalls(env, other) && IsListed(env.func, id)
    ensures EffectOn(env, id, st, i) == EffectOn(other, id, st, i)
  {
    hide OnEach, ArgMerge, On;
    if id < |env.func.values| && env.func.values[id].CallDirect? {
      var call := env.func.values[id];
      assert CallsFunction(env.func, call.callee);
      OnEachAlike(st.direct, call.args, i, CallEffects(env, call.callee), CallEffects(other, call.callee));
    }
  }

  /** Noting the same visits gives the same summary. */
  lemma {:induction false} SummaryDepends(env: Env, other: Env, visits: seq<Visit>)
    requires AgreeOnCalls(env, other)
    requires forall k :: 0 <= k < |visits| && visits[k].AtInst? ==> IsListed(env.func, visits[k].id)
    ensures Collected(env, visits) == Collected(other, visits)
  {
    hide EffectOn, ArgMerge, OfOp, On, ReturnEffectOf;
    if visits != [] {
      SummaryDepends(env, other, visits[..|visits| - 1]);
      var last := visits[|visits| - 1];
      if last.AtInst? {
        forall i: nat ensures EffectOn(env, last.id, last.st, i) == EffectOn(other, last.id, last.st, i) {
          EffectDepends(env, other, last.id, last.st, i);
        }
        assert Noted(env, last.id, last.st, Collected(env, visits[..|visits| - 1])).args
          == Noted(other, last.id, last.st, Collected(env, visits[..|visits| - 1])).args;
      }
    }
  }

  lemma {:induction false} StatesDepend(env: Env, other: Env, insts: seq<ValueId>, st: TaintState)
    requires AgreeOnCalls(env, other) && forall k :: 0 <= k < |insts| ==> IsListed(env.func, insts[k])
    ensures TransferInsts(TaintAnalysis(env), insts, st) == TransferInsts(TaintAnalysis(other), insts, st)
    decreases |insts|
  {
    hide Transfer, AgreeOnCalls;
    if insts != [] {
      assert IsListed(env.func, insts[0]);
      TransferDepends(env, other, insts[0], st);
      StatesDepend(env, other, insts[1..], Transfer(env, insts[0], st));
    }
  }

  /** A fixpoint for one table is a fixpoint for the other. */
  lemma FixpointDepends(env: Env, other: Env, states: map<Label, TaintState>, reached: set<Label>)
    requires AgreeOnCalls(env, other) && Solved(env, states, reached)
    ensures Solved(other, states, reached)
  {
    hide Transfer, AgreeOnCalls, Le;
    var a, o := TaintAnalysis(env), TaintAnalysis(other);
    FuncsAgree(env, other);
    forall i, y | 0 <= i < |env.func.blocks| && env.func.blocks[i].name in reached
      && y in Successors(env.func.blocks[i])
      ensures y in reached && EdgeStable(o, env.func.blocks[i], y, states)
    {
      var block := env.func.blocks[i];
      assert BlockStable(a, block, reached, states);
      BlockListed(env.func, i);
      StatesDepend(env, other, block.insts, states[block.name]);
      assert EdgeStable(a, block, y, states);
      var t: nat :| a.merge(states[y], Flow(a, block, y, states[block.name]), t) == states[y];
      assert o.merge(states[y], Flow(o, block, y, states[block.name]), t) == states[y];
    }
    forall l | l in states ensures AtEntry(other, l, states[l]) { assert AtEntry(env, l, states[l]); }
  }

  lemma BlockListed(func: Function, b: nat)
    requires b < |func.blocks|
    ensures forall k :: 0 <= k < |func.blocks[b].insts| ==> IsListed(func, func.blocks[b].insts[k])
  {
    forall k | 0 <= k < |func.blocks[b].insts| ensures IsListed(func, func.blocks[b].insts[k]) {
      assert func.blocks[b].insts[k] in func.blocks[b].insts;
    }
  }

  lemma FuncsAgree(env: Env, other: Env)
    requires AgreeOnCalls(env, other)
    ensures env.func == other.func
  {}

  // ----- returns -------------------------------------------------------------------------

  /** Some visited return gives back a value that stems from argument `i` itself, or from what
      it carries. */
  ghost predicate Returns(env: Env, visits: seq<Visit>, direct: bool, i: nat) {
    exists k :: 0 <= k < |visits| && ReturnsAt(env, visits[k], direct, i)
  }

  ghost predicate ReturnsAt(env: Env, v: Visit, direct: bool, i: nat) {
    i < env.func.argCount && (if direct then Direct(i) else Carried(i)) in ReturnedBy(env, v)
  }

  lemma ReturnsSnoc(env: Env, visits: seq<Visit>, direct: bool, i: nat)
    requires visits != []
    ensures var last := |visits| - 1;
            Returns(env, visits, direct, i) <==>
              Returns(env, visits[..last], direct, i) || ReturnsAt(env, visits[last], direct, i)
  {
    hide ReturnsAt;
    var last := |visits| - 1;
    if Returns(env, visits[..last], direct, i) {
      var k :| 0 <= k < last && ReturnsAt(env, visits[..last][k], direct, i);
      assert ReturnsAt(env, visits[k], direct, i);
    }
    if Returns(env, visits, direct, i) && !ReturnsAt(env, visits[last], direct, i) {
      var k :| 0 <= k < |visits| && ReturnsAt(env, visits[k], direct, i);
      assert ReturnsAt(env, visits[..last][k], direct, i);
    }
  }

  /** A return effect that lists the arguments `d` borrowed from or, if there are none, the
      arguments `c` whose carried borrows are returned. */
  ghost predicate Lists(ret: ReturnEffect, d: nat -> bool, c: nat -> bool) {
    match ret
    case Independent => forall i :: !d(i) && !c(i)
    case BorrowsFrom(x) => x != [] && forall i: nat :: i in x <==> d(i)
    case BorrowsCarried(x) => x != [] && (forall i: nat :: i in x <==> c(i)) && forall i :: !d(i)
    case UnknownReturn => false
  }

  lemma ListsMore(
      ret: ReturnEffect, ts: set<Taint>, n: nat, d: nat -> bool, c: nat -> bool, d': nat -> bool, c': nat -> bool)
    requires Lists(ret, d, c)
    requires forall i: nat :: d'(i) <==> d(i) || (i < n && Direct(i) in ts)
    requires forall i: nat :: c'(i) <==> c(i) || (i < n && Carried(i) in ts)
    ensures Lists(ReturnEffectOf(ts, ret, n), d', c')
  {
    var direct, carried := ArgsOf(ts, true, n), ArgsOf(ts, false, n);
    assert direct != [] ==> direct[0] in direct;
    assert carried != [] ==> carried[0] in carried;
    var first := if direct == [] then ret else ReturnMerge(ret, BorrowsFrom(direct));
    FirstLists(ret, direct, d, c, d');
    SecondLists(first, carried, d', c, c');
  }

  lemma FirstLists(ret: ReturnEffect, direct: seq<nat>, d: nat -> bool, c: nat -> bool, d': nat -> bool)
    requires Lists(ret, d, c) && forall i :: d'(i) <==> d(i) || i in direct
    ensures Lists(if direct == [] then ret else ReturnMerge(ret, BorrowsFrom(direct)), d', c)
  {
    hide MergeIndices;
    if direct != [] {
      assert direct[0] in direct && d'(direct[0]);
      if ret.BorrowsFrom? {
        MergeIndicesUnites(ret.indices, direct);
        assert direct[0] in MergeIndices(ret.indices, direct);
      }
    }
  }

  lemma SecondLists(ret: ReturnEffect, carried: seq<nat>, d: nat -> bool, c: nat -> bool, c': nat -> bool)
    requires Lists(ret, d, c) && forall i :: c'(i) <==> c(i) || i in carried
    ensures Lists(if carried == [] then ret else ReturnMerge(ret, BorrowsCarried(carried)), d, c')
  {
    hide MergeIndices;
    if carried != [] {
      assert carried[0] in carried && c'(carried[0]);
      if ret.BorrowsCarried? {
        MergeIndicesUnites(ret.indices, carried);
        assert carried[0] in MergeIndices(ret.indices, carried);
      }
    }
  }

  /** The return effect names exactly the arguments that returned values stem from.  If there are
      none, it names exactly those whose carried borrows are returned; if there are any, the
      carried ones are forgotten. */
  lemma {:induction false} ReturnIsExact(env: Env, visits: seq<Visit>)
    ensures Lists(Collected(env, visits).ret, (i: nat) => Returns(env, visits, true, i),
      (i: nat) => Returns(env, visits, false, i))
    decreases |visits|
  {
    hide Lists, Returns, ReturnsAt, ReturnEffectOf;
    if visits == [] {
      NoReturns(env);
    } else {
      var init, last := visits[..|visits| - 1], visits[|visits| - 1];
      ReturnIsExact(env, init);
      forall i: nat, direct: bool
        ensures Returns(env, visits, direct, i) <==> Returns(env, init, direct, i) || ReturnsAt(env, last, direct, i)
      {
        ReturnsSnoc(env, visits, direct, i);
      }
      LastReturn(env, init, visits, Collected(env, init).ret);
    }
  }

  lemma NoReturns(env: Env)
    ensures Lists(Independent, (i: nat) => Returns(env, [], true, i), (i: nat) => Returns(env, [], false, i))
  {}

  lemma LastReturn(env: Env, init: seq<Visit>, visits: seq<Visit>, ret: ReturnEffect)
    requires visits != [] && init == visits[..|visits| - 1] && ret == Collected(env, init).ret
    requires Lists(ret, (i: nat) => Returns(env, init, true, i), (i: nat) => Returns(env, init, false, i))
    requires forall i: nat, direct: bool ::
      Returns(env, visits, direct, i) <==>
        Returns(env, init, direct, i) || ReturnsAt(env, visits[|visits| - 1], direct, i)
    ensures Lists(Collected(env, visits).ret, (i: nat) => Returns(env, visits, true, i),
      (i: nat) => Returns(env, visits, false, i))
  {
    hide Returns, ReturnEffectOf, ReturnedBy, Lists, NotedVisit;
    var last := visits[|visits| - 1];
    var d, c := (i: nat) => Returns(env, init, true, i), (i: nat) => Returns(env, init, false, i);
    var d', c' := (i: nat) => Returns(env, visits, true, i), (i: nat) => Returns(env, visits, false, i);
    forall i: nat ensures d'(i) <==> d(i) || (i < env.func.argCount && Direct(i) in ReturnedBy(env, last)) {
      assert Returns(env, visits, true, i) <==> Returns(env, init, true, i) || ReturnsAt(env, last, true, i);
    }
    forall i: nat ensures c'(i) <==> c(i) || (i < env.func.argCount && Carried(i) in ReturnedBy(env, last)) {
      assert Returns(env, visits, false, i) <==> Returns(env, init, false, i) || ReturnsAt(env, last, false, i);
    }
    ListsMore(ret, ReturnedBy(env, last), env.func.argCount, d, c, d', c');
    VisitReturns(env, last, Collected(env, init));
  }

  lemma VisitReturns(env: Env, v: Visit, s: Summary)
    ensures NotedVisit(env, v, s).ret == ReturnEffectOf(ReturnedBy(env, v), s.ret, |s.args|)
  {
    hide EffectOn, ArgsOf, ReturnMerge, OfOp;
    NothingReturned(s.ret, |s.args|);
  }

  lemma NothingReturned(ret: ReturnEffect, n: nat)
    ensures ReturnEffectOf({}, ret, n) == ret
  {
    NoArgs(true, n);
    NoArgs(false, n);
  }

  lemma {:induction false} NoArgs(direct: bool, n: nat)
    ensures ArgsOf({}, direct, n) == []
  {
    if n > 0 { NoArgs(direct, n - 1); }
  }

  // ----- the run -------------------------------------------------------------------------

  /** Values are numbered when they are built: pointers an instruction follows come before it. */
  ghost predicate PointersBefore(func: Function) {
    forall v :: 0 <= v < |func.values| ==>
      match func.values[v]
      case Borrow(_, Value(b)) => b < v
      case MakeTraitObject(Value(b), _) => b < v
      case MakeSlice(Value(b), _) => b < v
      case FieldPtr(Value(b), _) => b < v
      case Cast(Value(b)) => b < v
      case PtrOffset(Value(b), _) => b < v
      case Store(Value(b), _) => b < v
      case _ => true
  }

  /** All pairs of the first `n` values and taints of the first `args` arguments. */
  ghost function Pairs(n: nat, args: nat): Taints {
    if n == 0 then {}
    else
      Pairs(n - 1, args) + (set a | 0 <= a < args :: (n - 1, Direct(a)))
        + (set a | 0 <= a < args :: (n - 1, Carried(a)))
  }

  ghost function Universe(env: Env): Taints {
    Pairs(|env.func.values| + env.func.argCount, env.func.argCount)
  }

  ghost predicate Bounded(env: Env, st: TaintState) {
    st.direct <= Universe(env) && st.carried <= Universe(env) && AliasesDescend(st.aliases)
  }

  lemma {:induction false} InPairs(n: nat, args: nat, v: ValueId, t: Taint)
    ensures (v, t) in Pairs(n, args) <==> v < n && t.arg < args
  {
    if n > 0 {
      InPairs(n - 1, args, v, t);
      if v == n - 1 && t.arg < args {
        assert (v, t) == if t.Direct? then (n - 1, Direct(t.arg)) else (n - 1, Carried(t.arg));
      }
    }
  }

  lemma InUniverse(env: Env, v: ValueId, t: Taint)
    ensures (v, t) in Universe(env) <==> v < |env.func.values| + env.func.argCount && t.arg < env.func.argCount
  {
    InPairs(|env.func.values| + env.func.argCount, env.func.argCount, v, t);
  }

  lemma WithBounded(env: Env, m: Taints, id: ValueId, ts: set<Taint>)
    requires m <= Universe(env) && id < |env.func.values| && forall t :: t in ts ==> t.arg < env.func.argCount
    ensures With(m, id, ts) <= Universe(env)
  {
    forall t | t in ts ensures (id, t) in Universe(env) { InUniverse(env, id, t); }
  }

  lemma OfBounded(env: Env, m: Taints)
    requires m <= Universe(env)
    ensures forall op, t :: t in OfOp(m, op) ==> t.arg < env.func.argCount
    ensures Fits(m, env.func.argCount)
  {
    forall v, t | (v, t) in m ensures t.arg < env.func.argCount { InUniverse(env, v, t); }
    forall op, t | t in OfOp(m, op) ensures t.arg < env.func.argCount {
      assert (op.id, t) in m;
    }
    forall p | p in m ensures p.1.arg < env.func.argCount {
      assert (p.0, p.1) in m;
    }
  }

  lemma {:induction false} RootBelow(aliases: map<ValueId, Operand>, v: ValueId)
    ensures Root(aliases, v).Value? && AliasesDescend(aliases) ==> Root(aliases, v).id <= v
    decreases v
  {
    if v in aliases && aliases[v].Value? && aliases[v].id < v { RootBelow(aliases, aliases[v].id); }
  }

  lemma CopyBounded(env: Env, st: TaintState, id: ValueId, ops: seq<Operand>)
    requires Bounded(env, st) && id < |env.func.values|
    ensures Bounded(env, Copied(st, id, ops))
  {
    hide Universe;
    OfBounded(env, st.direct);
    OfBounded(env, st.carried);
    WithBounded(env, st.direct, id, OfAll(st.direct, ops));
    WithBounded(env, st.carried, id, OfAll(st.carried, ops));
  }

  lemma ReturnedBounded(env: Env, st: TaintState, ret: ReturnEffect, args: seq<Operand>)
    requires Bounded(env, st)
    ensures forall t :: t in Returned(ret, st, args) ==> t.arg < env.func.argCount
  {
    hide Universe;
    OfBounded(env, st.direct);
    OfBounded(env, st.carried);
  }

  lemma TransferBounded(env: Env, id: ValueId, st: TaintState)
    requires Bounded(env, st) && PointersBefore(env.func)
    ensures Bounded(env, Transfer(env, id, st))
  {
    hide Universe, OfOp, OfAll, Returned, Copied, With;
    if id < |env.func.values| {
      OfBounded(env, st.direct);
      OfBounded(env, st.carried);
      forall ops ensures Bounded(env, Copied(st, id, ops)) { CopyBounded(env, st, id, ops); }
      match env.func.values[id]
      case Load(ptr) =>
        WithBounded(env, st.direct, id, OfOp(st.carried, ptr));
        WithBounded(env, st.carried, id, OfOp(st.carried, ptr));
      case Store(ptr, value) =>
        if ptr.Value? && Root(st.aliases, ptr.id).Value? {
          RootBelow(st.aliases, ptr.id);
          WithBounded(env, st.carried, Root(st.aliases, ptr.id).id, OfOp(st.direct, value) + OfOp(st.carried, value));
        }
      case CallDirect(callee, args) =>
        if callee in env.table {
          ReturnedBounded(env, st, env.table[callee].ret, args);
          WithBounded(env, Without(st.direct, id), id, Returned(env.table[callee].ret, st, args));
        }
      case _ =>
    }
  }

  lemma {:induction false} InstsBounded(env: Env, insts: seq<ValueId>, st: TaintState)
    requires Bounded(env, st) && PointersBefore(env.func)
    ensures Bounded(env, TransferInsts(TaintAnalysis(env), insts, st))
    decreases |insts|
  {
    hide Bounded, Transfer, PointersBefore;
    if insts != [] {
      TransferBounded(env, insts[0], st);
      InstsBounded(env, insts[1..], Transfer(env, insts[0], st));
    }
  }

  ghost function TaintInv(env: Env): (Label, TaintState) -> bool {
    (l: Label, st: TaintState) => AtEntry(env, l, st) && Bounded(env, st)
  }

  function Rank(): TaintState -> nat {
    (st: TaintState) => |st.direct| + |st.carried|
  }

  lemma MergeStays(env: Env, y: Label, d: TaintState, s: TaintState)
    requires AtEntry(env, y, d) && Bounded(env, d) && Bounded(env, s)
    ensures AtEntry(env, y, MergeTaints(d, s)) && Bounded(env, MergeTaints(d, s))
  {
    hide Universe;
  }

  lemma EntryBounded(env: Env)
    ensures Bounded(env, EntryTaints(env.func.argCount)) && Bounded(env, TaintState({}, {}, map[]))
  {
    hide Universe;
    var n := env.func.argCount;
    forall i | 0 <= i < n ensures (i, Direct(i)) in Universe(env) && (i, Carried(i)) in Universe(env) {
      InUniverse(env, i, Direct(i));
      InUniverse(env, i, Carried(i));
    }
  }

  lemma TaintsAscend(env: Env)
    ensures Ascends(TaintAnalysis(env), TaintInv(env), Rank(), 2 * |Universe(env)|)
  {
    hide Universe, AtEntry;
    var a, inv := TaintAnalysis(env), TaintInv(env);
    forall l, s | inv(l, s) ensures Rank()(s) <= 2 * |Universe(env)| {
      Sets.SubsetSize(s.direct, Universe(env));
      Sets.SubsetSize(s.carried, Universe(env));
    }
    forall l, d, s, t: nat | inv(l, d) && inv(l, a.merge(d, s, t)) && a.merge(d, s, t) != d
      ensures Rank()(d) < Rank()(a.merge(d, s, t))
    {
      Sets.SubsetSize(d.direct, d.direct + s.direct);
      Sets.SubsetSize(d.carried, d.carried + s.carried);
    }
  }
}
