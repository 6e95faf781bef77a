/** Effect inference in place: what each instruction adds to the summary and to the taints. */
module EffectTransfer {
  import opened Wrappers
  import opened Mvir
  import opened Effects
  import opened EffectTaints
  import opened EffectMeaning

  class EffectInference {
    const env: Env
    var summary: Summary

    constructor (env: Env)
      ensures this.env == env && summary == DefaultFor(env.func.argCount)
    {
      this.env := env;
      this.summary := DefaultFor(env.func.argCount);
    }

    /** Merges `e` into the entry of every argument among the taints. */
    method Touch(ts: set<Taint>, e: ArgEffect)
      requires forall t :: t in ts ==> t.arg < |summary.args|
      modifies this`summary
      ensures summary == Touched(old(summary), ts, e)
    {
      var rest := ts;
      while rest != {}
        invariant rest <= ts && |summary.args| == |old(summary).args|
        invariant summary == old(summary).(args := summary.args)
        invariant forall i :: 0 <= i < |summary.args| ==>
          summary.args[i] == ArgMerge(old(summary).args[i], On(ts - rest, i, e))
      {
        var t :| t in rest;
        rest := rest - {t};
        ghost var before := summary;
        if t.Direct? {
          summary := summary.(args := summary.args[t.arg := ArgMerge(summary.args[t.arg], e)]);
        }
        forall i | 0 <= i < |summary.args|
          ensures summary.args[i] == ArgMerge(old(summary).args[i], On(ts - rest, i, e))
        {
          MergeLaws(old(summary).args[i], NoEffect(), e);
          if t == Direct(i) { MergeLaws(old(summary).args[i], On(ts - rest - {t}, i, e), e); }
        }
      }
      assert ts - rest == ts;
    }

    /** The arguments of a call, one after the other. */
    method TouchEach(m: Taints, args: seq<Operand>, effects: nat -> ArgEffect)
      requires Fits(m, |summary.args|)
      modifies this`summary
      ensures summary == old(summary).(args := summary.args) && |summary.args| == |old(summary).args|
      ensures forall i :: 0 <= i < |summary.args| ==>
        summary.args[i] == ArgMerge(old(summary).args[i], OnEach(m, args, i, effects))
    {
      Untouched(summary);
      for k := 0 to |args|
        invariant summary == old(summary).(args := summary.args) && |summary.args| == |old(summary).args|
        invariant forall i :: 0 <= i < |summary.args| ==>
          summary.args[i] == ArgMerge(old(summary).args[i], OnEach(m, args[..k], i, effects))
      {
        assert args[..k + 1][..k] == args[..k];
        Touch(OfOp(m, args[k]), effects(k));
        forall i | 0 <= i < |summary.args|
          ensures summary.args[i] == ArgMerge(old(summary).args[i], OnEach(m, args[..k + 1], i, effects))
        {
          MergeLaws(old(summary).args[i], OnEach(m, args[..k], i, effects), On(OfOp(m, args[k]), i, effects(k)));
        }
      }
      assert args[..|args|] == args;
    }

    /** Follows an alias chain to its end. */
    method ResolveAlias(aliases: map<ValueId, Operand>, op: Operand) returns (current: Operand)
      requires AliasesDescend(aliases)
      ensures current == if op.Value? then Root(aliases, op.id) else op
    {
      current := op;
      while current.Value? && current.id in aliases
        invariant op.Value? ==> current.Value? && Root(aliases, current.id) == Root(aliases, op.id)
        invariant !op.Value? ==> current == op
        decreases if current.Value? then current.id + 1 else 0
      {
        current := aliases[current.id];
      }
    }

    /** A store writes through its pointer, consumes its value and lets it escape to globals; what
        the pointer stems from then carries what the value stems from and carries. */
    method TransferStore(ptr: Operand, value: Operand, st: TaintState) returns (carried: Taints)
      requires Fits(st.direct, |summary.args|) && AliasesDescend(st.aliases)
      modifies this`summary
      ensures summary == old(summary).(args := summary.args) && |summary.args| == |old(summary).args|
      ensures forall i :: 0 <= i < |summary.args| ==>
        summary.args[i] == ArgMerge(old(summary).args[i], StoreEffect(ptr, value, st, i))
      ensures carried ==
        if ptr.Value? && Root(st.aliases, ptr.id).Value?
        then With(st.carried, Root(st.aliases, ptr.id).id, OfOp(st.direct, value) + OfOp(st.carried, value))
        else st.carried
    {
      Touch(OfOp(st.direct, ptr), NoEffect().(access := Write));
      Touch(OfOp(st.direct, value), ArgEffect(NoAccess, Consume, if ptr.Global? then MayEscape else NoEscape));
      forall i | 0 <= i < |summary.args|
        ensures summary.args[i] == ArgMerge(old(summary).args[i], StoreEffect(ptr, value, st, i))
      {
        MergeLaws(old(summary).args[i], On(OfOp(st.direct, ptr), i, NoEffect().(access := Write)),
                  On(OfOp(st.direct, value), i, ArgEffect(NoAccess, Consume, if ptr.Global? then MayEscape
                    else NoEscape)));
      }
      carried := st.carried;
      var root := ResolveAlias(st.aliases, ptr);
      if root.Value? {
        carried := With(carried, root.id, OfOp(st.direct, value) + OfOp(st.carried, value));
      }
    }

    /** What an instruction other than a store does to the arguments. */
    method NoteEffects(id: ValueId, st: TaintState)
      requires id < |env.func.values| && !env.func.values[id].Store? && Fits(st.direct, |summary.args|)
      modifies this`summary
      ensures summary == Noted(env, id, st, old(summary))
    {
      hide ArgMerge, On, OnEach, CallEffects;
      Untouched(summary);
      match env.func.values[id] {
        case Load(ptr) => { Touch(OfOp(st.direct, ptr), NoEffect().(access := Read)); }
        case Borrow(isRw, base) => {
          Touch(OfOp(st.direct, base), NoEffect().(ownership := if isRw then BorrowMut else BorrowShared));
        }
        case CallDirect(callee, args) => { TouchEach(st.direct, args, CallEffects(env, callee)); }
        case CallIndirect(_, args) => { TouchEach(st.direct, args, AllUnknown()); }
        case CallClosure(_, args) => { TouchEach(st.direct, args, AllUnknown()); }
        case CallVirt(obj, _, args) => { TouchEach(st.direct, [obj] + args, AllUnknown()); }
        case DropVirt(obj) => { Touch(OfOp(st.direct, obj), UnknownEffect().(escape := NoEscape)); }
        case _ => {}
      }
    }

    method TransferInstruction(id: ValueId, st: TaintState) returns (st': TaintState)
      requires id < |env.func.values| && Fits(st.direct, |summary.args|) && AliasesDescend(st.aliases)
      modifies this`summary
      ensures st' == Transfer(env, id, st) && summary == Noted(env, id, st, old(summary))
      ensures Inflicted(env, id, st, old(summary), summary) && TaintsMeant(env, id, st, st')
    {
      hide ArgMerge, On, OnEach, StoreEffect, Inflicted, TaintsMeant;
      NotedInflicts(env, id, st, summary);
      TransferMeant(env, id, st);
      var inst := env.func.values[id];
      if inst.Store? {
        var carried := TransferStore(inst.ptr, inst.value, st);
        st' := st.(carried := carried);
      } else {
        NoteEffects(id, st);
        st' := Transfer(env, id, st);
      }
    }

    method TransferTerminator(term: Terminator, st: TaintState)
      requires Fits(st.direct, |summary.args|)
      modifies this`summary
      ensures summary == NotedReturn(env, term, st, old(summary))
      ensures Consumed(env, term, st, old(summary), summary)
    {
      hide ReturnEffectOf, Consumed, ArgMerge, On;
      NotedConsumes(env, term, st, summary);
      if term.Ret? && term.value.Some? && env.returnsBorrow {
        var ts := OfOp(st.direct, term.value.value);
        var ret := ReturnEffectOf(ts, summary.ret, |summary.args|);
        Touch(ts, NoEffect().(ownership := Consume));
        summary := summary.(ret := ret);
      }
    }
  }
}
