/** Effect inference misses no effect: what an instruction does to an argument on some walk is
    in the summary. */
module EffectSoundness {
  import opened Wrappers
  import opened Mvir
  import opened Effects
  import opened ForwardDataflow
  import opened EffectTaints

  function EntryTaints(n: nat): TaintState {
    TaintState(set i | 0 <= i < n :: (i, Direct(i)), set i | 0 <= i < n :: (i, Carried(i)), map[])
  }

  /** Merging unites taints; aliases do not survive it. */
  function MergeTaints(d: TaintState, s: TaintState): TaintState {
    d.(direct := d.direct + s.direct, carried := d.carried + s.carried)
  }

  function TaintAnalysis(env: Env): Analysis<TaintState> {
    Analysis(
      TaintState({}, {}, map[]),
      EntryTaints(env.func.argCount),
      (id: ValueId, st: TaintState) => Transfer(env, id, st),
      (term: Terminator, st: TaintState) => st,
      (from: Label, to: Label, st: TaintState) => st,
      (d: TaintState, s: TaintState, call: nat) => MergeTaints(d, s))
  }

  // ----- more taints, more effects -------------------------------------------------------

  predicate Le(s: TaintState, t: TaintState) {
    s.direct <= t.direct && s.carried <= t.carried && s.aliases == t.aliases
  }

  lemma OfRises(m: Taints, m': Taints)
    requires m <= m'
    ensures forall op :: OfOp(m, op) <= OfOp(m', op)
    ensures forall ops :: OfAll(m, ops) <= OfAll(m', ops)
  {
    forall op ensures OfOp(m, op) <= OfOp(m', op) {}
    forall ops ensures OfAll(m, ops) <= OfAll(m', ops) {
      forall t | t in OfAll(m, ops) ensures t in OfAll(m', ops) {
        var k :| 0 <= k < |ops| && t in OfOp(m, ops[k]);
        assert t in OfOp(m', ops[k]);
      }
    }
  }

  // ----- raised summaries ----------------------------------------------------------------

  /** The result borrows from no less, in the same way. */
  ghost predicate RetRaised(a: ReturnEffect, b: ReturnEffect) {
    || a == b || a.Independent?
    || (a.BorrowsFrom? && b.BorrowsFrom? && Within(a.indices, b.indices))
    || (a.BorrowsCarried? && b.BorrowsCarried? && Within(a.indices, b.indices))
  }

  ghost predicate CalleeRaised(a: Summary, b: Summary) {
    && |a.args| == |b.args| && (forall i :: 0 <= i < |a.args| ==> ArgLeq(a.args[i], b.args[i]))
    && RetRaised(a.ret, b.ret)
  }

  /** The same function, seen with a table that says no less of any function. */
  ghost predicate Raised(env: Env, up: Env) {
    && env.func == up.func && env.returnsBorrow == up.returnsBorrow
    && (forall c :: c in env.table <==> c in up.table)
    && (forall c :: c in env.table ==> CalleeRaised(env.table[c], up.table[c]))
  }

  lemma RaisedSelf(env: Env)
    ensures Raised(env, env)
  {
    forall c | c in env.table ensures CalleeRaised(env.table[c], env.table[c]) {
      LeqReflexive(env.table[c]);
    }
  }

  lemma CallEffectsRise(env: Env, up: Env, callee: string, k: nat)
    requires Raised(env, up)
    ensures ArgLeq(CallEffects(env, callee)(k), CallEffects(up, callee)(k))
  {
    hide ArgLeq;
    if callee in env.table {
      assert CalleeRaised(env.table[callee], up.table[callee]);
      ArgOrder(NoEffect(), NoEffect(), NoEffect());
    } else {
      ArgOrder(CallEffects(env, callee)(k), CallEffects(env, callee)(k), NoEffect());
    }
  }

  lemma OnEachRises(
      m: Taints, m': Taints, args: seq<Operand>, i: nat, effects: nat -> ArgEffect, effects': nat -> ArgEffect)
    requires m <= m' && forall k: nat :: ArgLeq(effects(k), effects'(k))
    ensures ArgLeq(OnEach(m, args, i, effects), OnEach(m', args, i, effects'))
    decreases |args|
  {
    hide ArgLeq, ArgMerge, OfOp;
    if args != [] {
      var last := |args| - 1;
      OnEachRises(m, m', args[..last], i, effects, effects');
      OnRises(m, m', args[last], i, effects(last), effects'(last));
      MergeRises(OnEach(m, args[..last], i, effects), OnEach(m', args[..last], i, effects'),
                 On(OfOp(m, args[last]), i, effects(last)), On(OfOp(m', args[last]), i, effects'(last)));
    } else {
      ArgOrder(NoEffect(), NoEffect(), NoEffect());
    }
  }

  lemma OnRises(m: Taints, m': Taints, op: Operand, i: nat, e: ArgEffect, e': ArgEffect)
    requires m <= m' && ArgLeq(e, e')
    ensures ArgLeq(On(OfOp(m, op), i, e), On(OfOp(m', op), i, e'))
  {
    hide ArgLeq, OfOp;
    OfRises(m, m');
    NoEffectIsLeast(e');
    ArgOrder(NoEffect(), NoEffect(), NoEffect());
  }

  lemma MergeRises(a: ArgEffect, a': ArgEffect, b: ArgEffect, b': ArgEffect)
    requires ArgLeq(a, a') && ArgLeq(b, b')
    ensures ArgLeq(ArgMerge(a, b), ArgMerge(a', b'))
  {
    ArgMergeIsJoin(a', b', a);
    ArgOrder(a, a', ArgMerge(a', b'));
    ArgOrder(b, b', ArgMerge(a', b'));
    ArgMergeIsJoin(a, b, ArgMerge(a', b'));
  }

  lemma NoEffectIsLeast(a: ArgEffect)
    ensures ArgLeq(NoEffect(), a)
  {}

  /** An instruction does no less with more taints, and where callees do no less. */
  lemma EffectRises(env: Env, up: Env, id: ValueId, s: TaintState, t: TaintState, i: nat)
    requires Le(s, t) && Raised(env, up)
    ensures ArgLeq(EffectOn(env, id, s, i), EffectOn(up, id, t, i))
  {
    hide ArgLeq, ArgMerge, OnEach, CallEffects, OfOp, On, Raised;
    SameFunction(env, up);
    ArgOrder(NoEffect(), NoEffect(), NoEffect());
    if id < |env.func.values| {
      forall op, e ensures ArgLeq(On(OfOp(s.direct, op), i, e), On(OfOp(t.direct, op), i, e)) {
        ArgOrder(e, e, e);
        OnRises(s.direct, t.direct, op, i, e, e);
      }
      match env.func.values[id]
      case Store(ptr, value) => StoreRises(ptr, value, s, t, i);
      case CallDirect(callee, args) =>
        forall k: nat ensures ArgLeq(CallEffects(env, callee)(k), CallEffects(up, callee)(k)) {
          CallEffectsRise(env, up, callee, k);
        }
        OnEachRises(s.direct, t.direct, args, i, CallEffects(env, callee), CallEffects(up, callee));
      case CallIndirect(_, args) => UnknownRises(s.direct, t.direct, args, i);
      case CallClosure(_, args) => UnknownRises(s.direct, t.direct, args, i);
      case CallVirt(obj, _, args) => UnknownRises(s.direct, t.direct, [obj] + args, i);
      case _ =>
    }
  }

  lemma SameFunction(env: Env, up: Env)
    requires Raised(env, up)
    ensures env.func == up.func && env.returnsBorrow == up.returnsBorrow
  {}

  lemma UnknownRises(m: Taints, m': Taints, args: seq<Operand>, i: nat)
    requires m <= m'
    ensures ArgLeq(OnEach(m, args, i, AllUnknown()), OnEach(m', args, i, AllUnknown()))
  {
    ArgOrder(UnknownEffect(), UnknownEffect(), UnknownEffect());
    OnEachRises(m, m', args, i, AllUnknown(), AllUnknown());
  }

  lemma StoreRises(ptr: Operand, value: Operand, s: TaintState, t: TaintState, i: nat)
    requires Le(s, t)
    ensures ArgLeq(StoreEffect(ptr, value, s, i), StoreEffect(ptr, value, t, i))
  {
    hide ArgLeq, ArgMerge, OfOp, On;
    var e1, e2 := NoEffect().(access := Write),
      ArgEffect(NoAccess, Consume, if ptr.Global? then MayEscape else NoEscape);
    ArgOrder(e1, e1, e1);
    ArgOrder(e2, e2, e2);
    OnRises(s.direct, t.direct, ptr, i, e1, e1);
    OnRises(s.direct, t.direct, value, i, e2, e2);
    MergeRises(On(OfOp(s.direct, ptr), i, e1), On(OfOp(t.direct, ptr), i, e1),
               On(OfOp(s.direct, value), i, e2), On(OfOp(t.direct, value), i, e2));
  }

  // ----- more taints before, more taints after -------------------------------------------

  /** The result of a call has taints only from arguments that have some. */
  ghost predicate HasSource(env: Env, st: TaintState, v: ValueId)
    requires v < |env.func.values| && env.func.values[v].CallDirect?
  {
    var call := env.func.values[v];
    call.callee in env.table && Of(st.direct, v) != {} ==> Returned(env.table[call.callee].ret, st, call.args) != {}
  }

  ghost predicate CallsHaveSources(env: Env, st: TaintState) {
    forall v :: 0 <= v < |env.func.values| && env.func.values[v].CallDirect? ==> HasSource(env, st, v)
  }

  lemma ReturnedRises(ret: ReturnEffect, ret': ReturnEffect, s: TaintState, t: TaintState, args: seq<Operand>)
    requires s.direct <= t.direct && s.carried <= t.carried && RetRaised(ret, ret')
    ensures Returned(ret, s, args) <= Returned(ret', t, args)
  {
    OfRises(s.direct, t.direct);
    OfRises(s.carried, t.carried);
    forall x | x in Returned(ret, s, args) ensures x in Returned(ret', t, args) {
      match ret
      case BorrowsFrom(indices) =>
        var k :| k in indices && k < |args| && x in OfOp(s.direct, args[k]);
        assert x in OfOp(t.direct, args[k]);
      case BorrowsCarried(indices) =>
        var k :| k in indices && k < |args| && x in OfOp(s.carried, args[k]);
        assert x in OfOp(t.carried, args[k]);
    }
  }

  lemma CopyRises(s: TaintState, t: TaintState, id: ValueId, ops: seq<Operand>)
    requires Le(s, t)
    ensures Le(Copied(s, id, ops), Copied(t, id, ops))
  {
    OfRises(s.direct, t.direct);
    OfRises(s.carried, t.carried);
  }

  /** A call's result replaces the taints it had, and still loses none: what it had came from
      arguments that have more now. */
  lemma CallRises(env: Env, up: Env, id: ValueId, s: TaintState, t: TaintState)
    requires Le(s, t) && Raised(env, up)
    requires id < |env.func.values| && env.func.values[id].CallDirect? && HasSource(env, s, id)
    ensures Le(Transfer(env, id, s), Transfer(up, id, t))
  {
    var call := env.func.values[id];
    if call.callee in env.table {
      assert CalleeRaised(env.table[call.callee], up.table[call.callee]);
      var ret := env.table[call.callee].ret;
      ReturnedRises(ret, up.table[call.callee].ret, s, t, call.args);
      if Returned(ret, s, call.args) == {} {
        assert Of(s.direct, id) == {};
        forall p | p in s.direct ensures p.0 != id {
          assert p.0 == id ==> p.1 in Of(s.direct, id);
        }
      }
    }
  }

  /** More taints before, and callees that return no less, give more taints after. */
  lemma TransferRises(env: Env, up: Env, id: ValueId, s: TaintState, t: TaintState)
    requires Le(s, t) && CallsHaveSources(env, s) && Raised(env, up)
    ensures Le(Transfer(env, id, s), Transfer(up, id, t))
  {
    hide Transfer, HasSource, Raised, Le;
    SameFunction(env, up);
    if id < |env.func.values| && env.func.values[id].CallDirect? {
      CallRises(env, up, id, s, t);
    } else {
      OtherRises(env, id, s, t);
      OtherAlike(env, up, id, t);
    }
  }

  /** What is not a call looks at no table. */
  lemma OtherAlike(env: Env, up: Env, id: ValueId, st: TaintState)
    requires env.func == up.func && (id < |env.func.values| ==> !env.func.values[id].CallDirect?)
    ensures Transfer(env, id, st) == Transfer(up, id, st)
  {
    hide Copied, OfOp, OfAll, Root;
  }

  lemma OtherRises(env: Env, id: ValueId, s: TaintState, t: TaintState)
    requires Le(s, t) && (id < |env.func.values| ==> !env.func.values[id].CallDirect?)
    ensures Le(Transfer(env, id, s), Transfer(env, id, t))
  {
    hide Copied, OfAll;
    OfRises(s.direct, t.direct);
    OfRises(s.carried, t.carried);
    forall ops ensures Le(Copied(s, id, ops), Copied(t, id, ops)) { CopyRises(s, t, id, ops); }
  }

  // ----- sources stay --------------------------------------------------------------------

  /** A value that has taints keeps some. */
  ghost predicate Retains(s: TaintState, t: TaintState) {
    && (forall v :: Of(s.direct, v) != {} ==> Of(t.direct, v) != {})
    && (forall v :: Of(s.carried, v) != {} ==> Of(t.carried, v) != {})
  }

  lemma GrowthRetains(s: TaintState, t: TaintState)
    requires s.direct <= t.direct && s.carried <= t.carried
    ensures Retains(s, t)
  {
    forall v | Of(s.direct, v) != {} ensures Of(t.direct, v) != {} {
      var x :| x in Of(s.direct, v);
      assert x in Of(t.direct, v);
    }
    forall v | Of(s.carried, v) != {} ensures Of(t.carried, v) != {} {
      var x :| x in Of(s.carried, v);
      assert x in Of(t.carried, v);
    }
  }

  lemma ReplaceRetains(s: TaintState, id: ValueId, ts: set<Taint>)
    requires ts != {}
    ensures Retains(s, s.(direct := With(Without(s.direct, id), id, ts)))
  {
    var t := s.(direct := With(Without(s.direct, id), id, ts));
    forall v | Of(s.direct, v) != {} ensures Of(t.direct, v) != {} {
      if v == id {
        var x :| x in ts;
        assert x in Of(t.direct, v);
      } else {
        var x :| x in Of(s.direct, v);
        assert x in Of(t.direct, v);
      }
    }
  }

  lemma TransferRetains(env: Env, id: ValueId, s: TaintState)
    ensures Retains(s, Transfer(env, id, s))
  {
    hide Of, OfOp, OfAll, Retains, Without;
    var t := Transfer(env, id, s);
    if id < |env.func.values| && env.func.values[id].CallDirect? {
      var call := env.func.values[id];
      if call.callee in env.table && Returned(env.table[call.callee].ret, s, call.args) != {} {
        ReplaceRetains(s, id, Returned(env.table[call.callee].ret, s, call.args));
      } else {
        GrowthRetains(s, t);
      }
    } else {
      GrowthRetains(s, t);
    }
  }

  lemma ReturnedRetains(ret: ReturnEffect, s: TaintState, t: TaintState, args: seq<Operand>)
    requires Retains(s, t) && Returned(ret, s, args) != {}
    ensures Returned(ret, t, args) != {}
  {
    var x :| x in Returned(ret, s, args);
    match ret
    case BorrowsFrom(indices) =>
      var k :| k in indices && k < |args| && x in OfOp(s.direct, args[k]);
      assert Of(s.direct, args[k].id) != {};
      var y :| y in Of(t.direct, args[k].id);
      assert y in OfOp(t.direct, args[k]);
    case BorrowsCarried(indices) =>
      var k :| k in indices && k < |args| && x in OfOp(s.carried, args[k]);
      assert Of(s.carried, args[k].id) != {};
      var y :| y in Of(t.carried, args[k].id);
      assert y in OfOp(t.carried, args[k]);
  }

  /** Only instruction `v` itself gives value `v` direct taints. */
  lemma OthersKeep(env: Env, id: ValueId, s: TaintState, v: ValueId)
    requires v != id
    ensures Of(Transfer(env, id, s).direct, v) == Of(s.direct, v)
  {
    hide OfOp, OfAll, Returned;
  }

  lemma TransferKeepsSources(env: Env, id: ValueId, s: TaintState)
    requires CallsHaveSources(env, s)
    ensures CallsHaveSources(env, Transfer(env, id, s))
  {
    hide Retains;
    var t := Transfer(env, id, s);
    TransferRetains(env, id, s);
    forall v | 0 <= v < |env.func.values| && env.func.values[v].CallDirect? ensures HasSource(env, t, v) {
      var call := env.func.values[v];
      assert HasSource(env, s, v);
      if call.callee in env.table && Returned(env.table[call.callee].ret, s, call.args) != {} {
        ReturnedRetains(env.table[call.callee].ret, s, t, call.args);
      } else if v != id {
        OthersKeep(env, id, s, v);
      }
    }
  }
}
