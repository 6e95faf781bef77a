/** What instructions do to the arguments that their operands stem from, and where their results stem
    from, kind by kind. */
module EffectMeaning {
  import opened Wrappers
  import opened Mvir
  import opened Effects
  import opened EffectTaints

  // ----- effects -------------------------------------------------------------------------

  /** The operand's value has the taint. */
  predicate Has(m: Taints, op: Operand, t: Taint) {
    op.Value? && (op.id, t) in m
  }

  /** What a direct call does to the value at position `k`: what the callee's summary says of that
      argument; without a summary anything, but for one foreign function. */
  ghost predicate CallInflicts(env: Env, callee: string, k: nat, e: ArgEffect) {
    if callee in env.table then k < |env.table[callee].args| && e == env.table[callee].args[k]
    else if callee == "extern_mutate" && k == 0 then e == ArgEffect(ReadWrite, BorrowMut, MayEscape)
    else e == ArgEffect(UnknownAccess, UnknownOwnership, UnknownEscape)
  }

  /** The instruction has effect `e` on the operand's value. */
  ghost predicate Inflicts(env: Env, inst: Instruction, op: Operand, e: ArgEffect) {
    match inst
    case Load(ptr) => op == ptr && e == ArgEffect(Read, Copy, NoEscape)
    case Store(ptr, value) =>
      || (op == ptr && e == ArgEffect(Write, Copy, NoEscape))
      || (op == value && e == ArgEffect(NoAccess, Consume, if ptr.Global? then MayEscape else NoEscape))
    case Borrow(isRw, base) => op == base && e
      == ArgEffect(NoAccess, if isRw then BorrowMut else BorrowShared, NoEscape)
    case CallDirect(callee, args) => exists k :: 0 <= k < |args| && op == args[k] && CallInflicts(env, callee, k, e)
    case CallIndirect(_, args) => op in args && e == ArgEffect(UnknownAccess, UnknownOwnership, UnknownEscape)
    case CallClosure(_, args) => op in args && e == ArgEffect(UnknownAccess, UnknownOwnership, UnknownEscape)
    case CallVirt(obj, _, args) =>
      (op == obj || op in args) && e == ArgEffect(UnknownAccess, UnknownOwnership, UnknownEscape)
    case DropVirt(obj) => op == obj && e == ArgEffect(UnknownAccess, UnknownOwnership, NoEscape)
    case _ => false
  }

  /** The instruction has effect `e` on argument `i`: on an operand that stems from it. */
  ghost predicate OnArgument(env: Env, id: ValueId, st: TaintState, i: nat, e: ArgEffect) {
    id < |env.func.values| && exists op :: Inflicts(env, env.func.values[id], op, e) && Has(st.direct, op, Direct(i))
  }

  /** `b` is the least effect above `a` and all that `es` holds of. */
  ghost predicate IsJoin(a: ArgEffect, es: ArgEffect -> bool, b: ArgEffect) {
    && ArgLeq(a, b) && (forall e :: es(e) ==> ArgLeq(e, b))
    && forall c :: ArgLeq(a, c) && (forall e :: es(e) ==> ArgLeq(e, c)) ==> ArgLeq(b, c)
  }

  /** Every argument's entry has risen by what the instruction does to it, and by nothing else. */
  ghost predicate Inflicted(env: Env, id: ValueId, st: TaintState, s: Summary, s': Summary) {
    && s' == s.(args := s'.args) && |s'.args| == |s.args|
    && forall i :: 0 <= i < |s.args| ==> IsJoin(s.args[i], EffectsOn(env, id, st, i), s'.args[i])
  }

  ghost function EffectsOn(env: Env, id: ValueId, st: TaintState, i: nat): ArgEffect -> bool {
    (e: ArgEffect) => OnArgument(env, id, st, i, e)
  }

  /** What a terminator has on argument `i`: a returned value that may hold a reference is given away. */
  ghost predicate GivesAway(env: Env, term: Terminator, st: TaintState, i: nat, e: ArgEffect) {
    && env.returnsBorrow && term.Ret? && term.value.Some? && Has(st.direct, term.value.value, Direct(i))
    && e == ArgEffect(NoAccess, Consume, NoEscape)
  }

  ghost function EffectsAtEnd(env: Env, term: Terminator, st: TaintState, i: nat): ArgEffect -> bool {
    (e: ArgEffect) => GivesAway(env, term, st, i, e)
  }

  ghost predicate Consumed(env: Env, term: Terminator, st: TaintState, s: Summary, s': Summary) {
    && s'.isOpaque == s.isOpaque && |s'.args| == |s.args|
    && forall i :: 0 <= i < |s.args| ==> IsJoin(s.args[i], EffectsAtEnd(env, term, st, i), s'.args[i])
  }

  lemma OnIs(m: Taints, op: Operand, i: nat, e: ArgEffect)
    ensures On(OfOp(m, op), i, e) == if Has(m, op, Direct(i)) then e else NoEffect()
  {}

  lemma NothingBelow(a: ArgEffect)
    ensures ArgLeq(NoEffect(), a)
  {}

  /** An effect on no argument or one, as a join. */
  lemma OneJoin(a: ArgEffect, here: bool, e: ArgEffect, es: ArgEffect -> bool)
    requires forall x :: es(x) <==> here && x == e
    ensures IsJoin(a, es, ArgMerge(a, if here then e else NoEffect()))
  {
    hide ArgLeq, ArgMerge;
    var x := if here then e else NoEffect();
    NothingBelow(a);
    ArgOrder(a, a, a);
    ArgMergeIsJoin(a, x, a);
    forall c | ArgLeq(a, c) && (forall y :: es(y) ==> ArgLeq(y, c)) ensures ArgLeq(ArgMerge(a, x), c) {
      NothingBelow(c);
      assert here ==> es(e);
      ArgMergeIsJoin(a, x, c);
    }
  }

  /** Joining on. */
  lemma JoinMore(
      a: ArgEffect, b: ArgEffect, c: ArgEffect, es: ArgEffect -> bool, fs: ArgEffect -> bool, all: ArgEffect -> bool)
    requires IsJoin(a, es, b) && IsJoin(b, fs, c) && forall e :: all(e) <==> es(e) || fs(e)
    ensures IsJoin(a, all, c)
  {
    hide ArgLeq;
    ArgOrder(a, b, c);
    forall e | all(e) ensures ArgLeq(e, c) { ArgOrder(e, b, c); }
  }

  /** Doing nothing is as good as no effect. */
  lemma JoinWithout(a: ArgEffect, b: ArgEffect, all: ArgEffect -> bool, es: ArgEffect -> bool)
    requires IsJoin(a, all, b)
    requires forall e :: es(e) ==> all(e)
    requires forall e :: all(e) ==> es(e) || e == NoEffect()
    ensures IsJoin(a, es, b)
  {
    hide ArgLeq;
    forall c | ArgLeq(a, c) && (forall e :: es(e) ==> ArgLeq(e, c)) ensures ArgLeq(b, c) {
      NothingBelow(c);
    }
  }

  ghost predicate AtSome(m: Taints, args: seq<Operand>, i: nat, effects: nat -> ArgEffect, e: ArgEffect) {
    exists k :: 0 <= k < |args| && Has(m, args[k], Direct(i)) && e == effects(k)
  }

  lemma {:induction false} EachJoin(
    a: ArgEffect, m: Taints, args: seq<Operand>, i: nat, effects: nat -> ArgEffect, es: ArgEffect -> bool)
    requires forall e :: es(e) <==> AtSome(m, args, i, effects, e)
    ensures IsJoin(a, es, ArgMerge(a, OnEach(m, args, i, effects)))
  {
    hide ArgMerge, On, IsJoin;
    if args == [] {
      OneJoin(a, false, NoEffect(), es);
    } else {
      var last := |args| - 1;
      var init, x := args[..last], effects(last);
      var here := Has(m, args[last], Direct(i));
      var before := OnEach(m, init, i, effects);
      var fs, gs := (e: ArgEffect) => AtSome(m, init, i, effects, e), (e: ArgEffect) => here && e == x;
      EachJoin(a, m, init, i, effects, fs);
      OneJoin(ArgMerge(a, before), here, x, gs);
      OnIs(m, args[last], i, x);
      forall e ensures es(e) <==> fs(e) || gs(e) { AtLast(m, args, i, effects, e); }
      MergeLaws(a, before, On(OfOp(m, args[last]), i, x));
      JoinMore(a, ArgMerge(a, before), ArgMerge(a, OnEach(m, args, i, effects)), fs, gs, es);
    }
  }

  lemma AtLast(m: Taints, args: seq<Operand>, i: nat, effects: nat -> ArgEffect, e: ArgEffect)
    requires args != []
    ensures AtSome(m, args, i, effects, e) <==>
      AtSome(m, args[..|args| - 1], i, effects, e)
      || (Has(m, args[|args| - 1], Direct(i)) && e == effects(|args| - 1))
  {
    var init := args[..|args| - 1];
    if AtSome(m, args, i, effects, e) {
      var k :| 0 <= k < |args| && Has(m, args[k], Direct(i)) && e == effects(k);
      if k < |init| { assert init[k] == args[k]; }
    }
    if AtSome(m, init, i, effects, e) {
      var k :| 0 <= k < |init| && Has(m, init[k], Direct(i)) && e == effects(k);
      assert init[k] == args[k];
    }
  }

  lemma CallEffectIs(env: Env, callee: string, k: nat, e: ArgEffect)
    ensures CallInflicts(env, callee, k, e) ==> e == CallEffects(env, callee)(k)
    ensures e == CallEffects(env, callee)(k) ==> CallInflicts(env, callee, k, e) || e == NoEffect()
  {
    var given := CallEffects(env, callee)(k);
    if callee in env.table {
      assert given == if k < |env.table[callee].args| then env.table[callee].args[k] else NoEffect();
    } else if callee == "extern_mutate" && k == 0 {
      assert given == ArgEffect(ReadWrite, BorrowMut, MayEscape);
    } else {
      assert given == UnknownEffect();
    }
  }

  lemma DirectCallJoin(env: Env, id: ValueId, st: TaintState, i: nat, a: ArgEffect)
    requires id < |env.func.values| && env.func.values[id].CallDirect?
    ensures IsJoin(a, EffectsOn(env, id, st, i), ArgMerge(a, EffectOn(env, id, st, i)))
  {
    hide ArgMerge, On, OnEach, IsJoin, CallEffects, CallInflicts;
    var inst := env.func.values[id];
    var effects, es := CallEffects(env, inst.callee), EffectsOn(env, id, st, i);
    var all := (e: ArgEffect) => AtSome(st.direct, inst.args, i, effects, e);
    EachJoin(a, st.direct, inst.args, i, effects, all);
    forall e | es(e) ensures all(e) {
      var op :| Inflicts(env, inst, op, e) && Has(st.direct, op, Direct(i));
      var k :| 0 <= k < |inst.args| && op == inst.args[k] && CallInflicts(env, inst.callee, k, e);
      CallEffectIs(env, inst.callee, k, e);
      assert Has(st.direct, inst.args[k], Direct(i)) && e == effects(k);
    }
    forall e | all(e) ensures es(e) || e == NoEffect() {
      var k :| 0 <= k < |inst.args| && Has(st.direct, inst.args[k], Direct(i)) && e == effects(k);
      CallEffectIs(env, inst.callee, k, e);
      if e != NoEffect() {
        assert Inflicts(env, inst, inst.args[k], e);
      }
    }
    JoinWithout(a, ArgMerge(a, EffectOn(env, id, st, i)), all, es);
  }

  /** Calls of what is not known. */
  lemma UnknownCallJoin(env: Env, id: ValueId, st: TaintState, i: nat, a: ArgEffect, args: seq<Operand>)
    requires id < |env.func.values|
    requires forall op, e :: Inflicts(env, env.func.values[id], op, e) <==> op in args && e == UnknownEffect()
    ensures IsJoin(a, EffectsOn(env, id, st, i), ArgMerge(a, OnEach(st.direct, args, i, AllUnknown())))
  {
    hide ArgMerge, On, OnEach, IsJoin, Inflicts;
    var inst, es := env.func.values[id], EffectsOn(env, id, st, i);
    forall e ensures es(e) <==> AtSome(st.direct, args, i, AllUnknown(), e) {
      if es(e) {
        var op :| Inflicts(env, inst, op, e) && Has(st.direct, op, Direct(i));
        var k :| 0 <= k < |args| && args[k] == op;
        assert Has(st.direct, args[k], Direct(i)) && e == AllUnknown()(k);
      }
      if AtSome(st.direct, args, i, AllUnknown(), e) {
        var k :| 0 <= k < |args| && Has(st.direct, args[k], Direct(i)) && e == AllUnknown()(k);
        assert Inflicts(env, inst, args[k], e);
      }
    }
    EachJoin(a, st.direct, args, i, AllUnknown(), es);
  }

  /** Effects on one operand. */
  lemma OneOperandJoin(env: Env, id: ValueId, st: TaintState, i: nat, a: ArgEffect, op: Operand, x: ArgEffect)
    requires id < |env.func.values|
    requires forall o, e :: Inflicts(env, env.func.values[id], o, e) <==> o == op && e == x
    ensures IsJoin(a, EffectsOn(env, id, st, i), ArgMerge(a, On(OfOp(st.direct, op), i, x)))
  {
    hide ArgMerge, On, IsJoin, Inflicts;
    var inst, es := env.func.values[id], EffectsOn(env, id, st, i);
    OnIs(st.direct, op, i, x);
    forall e ensures es(e) <==> Has(st.direct, op, Direct(i)) && e == x {
      if Has(st.direct, op, Direct(i)) && e == x { assert Inflicts(env, inst, op, e); }
    }
    OneJoin(a, Has(st.direct, op, Direct(i)), x, es);
  }

  lemma StoreJoin(env: Env, id: ValueId, st: TaintState, i: nat, a: ArgEffect)
    requires id < |env.func.values| && env.func.values[id].Store?
    ensures IsJoin(a, EffectsOn(env, id, st, i), ArgMerge(a, EffectOn(env, id, st, i)))
  {
    hide ArgMerge, On, IsJoin;
    var inst, es := env.func.values[id], EffectsOn(env, id, st, i);
    var x := NoEffect().(access := Write);
    var y := ArgEffect(NoAccess, Consume, if inst.ptr.Global? then MayEscape else NoEscape);
    var atPtr, atValue := Has(st.direct, inst.ptr, Direct(i)), Has(st.direct, inst.value, Direct(i));
    var fs, gs := (e: ArgEffect) => atPtr && e == x, (e: ArgEffect) => atValue && e == y;
    var first, second := On(OfOp(st.direct, inst.ptr), i, x), On(OfOp(st.direct, inst.value), i, y);
    OnIs(st.direct, inst.ptr, i, x);
    OnIs(st.direct, inst.value, i, y);
    OneJoin(a, atPtr, x, fs);
    OneJoin(ArgMerge(a, first), atValue, y, gs);
    MergeLaws(a, first, second);
    forall e ensures es(e) <==> fs(e) || gs(e) {
      if fs(e) { assert Inflicts(env, inst, inst.ptr, e); }
      if gs(e) { assert Inflicts(env, inst, inst.value, e); }
    }
    JoinMore(a, ArgMerge(a, first), ArgMerge(ArgMerge(a, first), second), fs, gs, es);
  }

  /** What an instruction does to an argument, in all: the least above its effects on it. */
  lemma EffectIsJoin(env: Env, id: ValueId, st: TaintState, i: nat, a: ArgEffect)
    requires id < |env.func.values|
    ensures IsJoin(a, EffectsOn(env, id, st, i), ArgMerge(a, EffectOn(env, id, st, i)))
  {
    hide ArgMerge, On, OnEach, IsJoin;
    match env.func.values[id]
    case Load(ptr) => OneOperandJoin(env, id, st, i, a, ptr, NoEffect().(access := Read));
    case Store(_, _) => StoreJoin(env, id, st, i, a);
    case Borrow(isRw, base) =>
      OneOperandJoin(env, id, st, i, a, base, NoEffect().(ownership := if isRw then BorrowMut else BorrowShared));
    case CallDirect(_, _) => DirectCallJoin(env, id, st, i, a);
    case CallIndirect(_, args) => UnknownCallJoin(env, id, st, i, a, args);
    case CallClosure(_, args) => UnknownCallJoin(env, id, st, i, a, args);
    case CallVirt(obj, _, args) => UnknownCallJoin(env, id, st, i, a, [obj] + args);
    case DropVirt(obj) => OneOperandJoin(env, id, st, i, a, obj, UnknownEffect().(escape := NoEscape));
    case _ => OneJoin(a, false, NoEffect(), EffectsOn(env, id, st, i));
  }

  lemma NotedInflicts(env: Env, id: ValueId, st: TaintState, s: Summary)
    requires id < |env.func.values|
    ensures Inflicted(env, id, st, s, Noted(env, id, st, s))
  {
    hide ArgMerge, EffectOn, EffectsOn, IsJoin;
    forall i | 0 <= i < |s.args|
      ensures IsJoin(s.args[i], EffectsOn(env, id, st, i), Noted(env, id, st, s).args[i])
    {
      EffectIsJoin(env, id, st, i, s.args[i]);
    }
  }

  lemma NotedConsumes(env: Env, term: Terminator, st: TaintState, s: Summary)
    ensures Consumed(env, term, st, s, NotedReturn(env, term, st, s))
  {
    hide ArgMerge, On, IsJoin, ReturnEffectOf;
    var e := NoEffect().(ownership := Consume);
    forall i | 0 <= i < |s.args|
      ensures IsJoin(s.args[i], EffectsAtEnd(env, term, st, i), NotedReturn(env, term, st, s).args[i])
    {
      var es := EffectsAtEnd(env, term, st, i);
      MergeLaws(s.args[i], NoEffect(), NoEffect());
      if env.returnsBorrow && term.Ret? && term.value.Some? {
        OnIs(st.direct, term.value.value, i, e);
        OneJoin(s.args[i], Has(st.direct, term.value.value, Direct(i)), e, es);
      } else {
        OneJoin(s.args[i], false, e, es);
      }
    }
  }

  // ----- taints --------------------------------------------------------------------------

  /** The result stems from what the operand stems from, and carries what it carries. */
  ghost predicate PassesOn(inst: Instruction, op: Operand) {
    || IsAliasOf(inst, op)
    || (inst.Variant? && op in inst.args)
    || (inst.Extract? && op == inst.value)
    || (inst.Tag? && op == inst.value)
    || (&& inst.Binary? && (op == inst.left || op == inst.right)
        && inst.bin in {Add, Sub, Mul, Div, Rem, Eq, LessThan, LessOrEq, GreaterThan, GreaterOrEq})
  }

  /** The result is another name of the operand's value, or of a part of it. */
  ghost predicate IsAliasOf(inst: Instruction, op: Operand) {
    || (inst.Borrow? && op == inst.base)
    || (inst.FieldPtr? && op == inst.base)
    || (inst.MakeTraitObject? && op == inst.dataPtr)
    || (inst.MakeSlice? && op == inst.dataPtr)
    || (inst.Cast? && op == inst.value)
    || (inst.PtrOffset? && op == inst.ptr)
  }

  ghost predicate Passed(inst: Instruction, m: Taints, t: Taint) {
    exists op :: PassesOn(inst, op) && Has(m, op, t)
  }

  /** A load gives what its pointer carries. */
  ghost predicate Loaded(inst: Instruction, st: TaintState, t: Taint) {
    inst.Load? && Has(st.carried, inst.ptr, t)
  }

  /** A direct call gives what the callee's summary says it borrows. */
  ghost predicate GivenBack(env: Env, inst: Instruction, st: TaintState, t: Taint) {
    && inst.CallDirect? && inst.callee in env.table
    && exists k :: 0 <= k < |inst.args| && Borrows(env.table[inst.callee].ret, st, inst.args[k], k, t)
  }

  /** What a result borrows from the operand at position `k`. */
  ghost predicate Borrows(ret: ReturnEffect, st: TaintState, op: Operand, k: nat, t: Taint) {
    || (ret.BorrowsFrom? && k in ret.indices && Has(st.direct, op, t))
    || (ret.BorrowsCarried? && k in ret.indices && Has(st.carried, op, t))
  }

  /** A store puts its value behind the end of its pointer's chain. */
  ghost predicate PutBehind(inst: Instruction, st: TaintState, v: ValueId, t: Taint) {
    && inst.Store? && inst.ptr.Value? && Root(st.aliases, inst.ptr.id) == Value(v)
    && (Has(st.direct, inst.value, t) || Has(st.carried, inst.value, t))
  }

  ghost predicate DirectMeant(env: Env, id: ValueId, inst: Instruction, st: TaintState, m: Taints) {
    forall v, t :: (v, t) in m <==>
      if v == id && exists u :: GivenBack(env, inst, st, u) then GivenBack(env, inst, st, t)
      else (v, t) in st.direct || (v == id && (Passed(inst, st.direct, t) || Loaded(inst, st, t)))
  }

  ghost predicate CarriedMeant(id: ValueId, inst: Instruction, st: TaintState, m: Taints) {
    forall v, t :: (v, t) in m <==>
      || (v, t) in st.carried
      || (v == id && (Passed(inst, st.carried, t) || Loaded(inst, st, t)))
      || PutBehind(inst, st, v, t)
  }

  ghost predicate AliasesMeant(id: ValueId, inst: Instruction, was: map<ValueId, Operand>, m: map<ValueId, Operand>) {
    forall v, op :: (v in m && m[v] == op) <==>
      if v == id && exists x :: IsAliasOf(inst, Value(x)) then IsAliasOf(inst, op)
      else v in was && was[v] == op
  }

  ghost predicate TaintsMeant(env: Env, id: ValueId, st: TaintState, st': TaintState) {
    && id < |env.func.values|
    && DirectMeant(env, id, env.func.values[id], st, st'.direct)
    && CarriedMeant(id, env.func.values[id], st, st'.carried)
    && AliasesMeant(id, env.func.values[id], st.aliases, st'.aliases)
  }

  lemma InWith(m: Taints, id: ValueId, ts: set<Taint>, v: ValueId, t: Taint)
    ensures (v, t) in With(m, id, ts) <==> (v, t) in m || (v == id && t in ts)
  {}

  lemma InWithout(m: Taints, id: ValueId, v: ValueId, t: Taint)
    ensures (v, t) in Without(m, id) <==> (v, t) in m && v != id
  {}

  lemma InOf(m: Taints, op: Operand, t: Taint)
    ensures t in OfOp(m, op) <==> Has(m, op, t)
  {}

  lemma InOfAll(m: Taints, ops: seq<Operand>, t: Taint)
    ensures t in OfAll(m, ops) <==> exists op :: op in ops && Has(m, op, t)
  {
    if t in OfAll(m, ops) {
      var k :| 0 <= k < |ops| && t in OfOp(m, ops[k]);
      assert ops[k] in ops && Has(m, ops[k], t);
    }
    if op :| op in ops && Has(m, op, t) {
      var k :| 0 <= k < |ops| && ops[k] == op;
      assert t in OfOp(m, ops[k]);
    }
  }

  lemma CopiedMeant(env: Env, id: ValueId, st: TaintState, ops: seq<Operand>, st': TaintState)
    requires id < |env.func.values|
    requires !env.func.values[id].CallDirect? && !env.func.values[id].Load? && !env.func.values[id].Store?
    requires forall op :: PassesOn(env.func.values[id], op) <==> op in ops
    requires st'.direct == Copied(st, id, ops).direct && st'.carried == Copied(st, id, ops).carried
    ensures DirectMeant(env, id, env.func.values[id], st, st'.direct)
    ensures CarriedMeant(id, env.func.values[id], st, st'.carried)
  {
    hide With, OfAll, PassesOn;
    var inst := env.func.values[id];
    forall v, t
      ensures (v, t) in st'.direct <==> (v, t) in st.direct || (v == id && Passed(inst, st.direct, t))
      ensures (v, t) in st'.carried <==> (v, t) in st.carried || (v == id && Passed(inst, st.carried, t))
    {
      InWith(st.direct, id, OfAll(st.direct, ops), v, t);
      InWith(st.carried, id, OfAll(st.carried, ops), v, t);
      InOfAll(st.direct, ops, t);
      InOfAll(st.carried, ops, t);
    }
  }

  lemma LoadMeant(env: Env, id: ValueId, st: TaintState)
    requires id < |env.func.values| && env.func.values[id].Load?
    ensures TaintsMeant(env, id, st, Transfer(env, id, st))
  {
    hide With, OfOp;
    var inst, st' := env.func.values[id], Transfer(env, id, st);
    forall v, t
      ensures (v, t) in st'.direct <==> (v, t) in st.direct || (v == id && Loaded(inst, st, t))
      ensures (v, t) in st'.carried <==> (v, t) in st.carried || (v == id && Loaded(inst, st, t))
    {
      InWith(st.direct, id, OfOp(st.carried, inst.ptr), v, t);
      InWith(st.carried, id, OfOp(st.carried, inst.ptr), v, t);
      InOf(st.carried, inst.ptr, t);
    }
  }

  lemma StoreMeant(env: Env, id: ValueId, st: TaintState)
    requires id < |env.func.values| && env.func.values[id].Store?
    ensures TaintsMeant(env, id, st, Transfer(env, id, st))
  {
    hide With, OfOp;
    var inst, st' := env.func.values[id], Transfer(env, id, st);
    var put := OfOp(st.direct, inst.value) + OfOp(st.carried, inst.value);
    var root := if inst.ptr.Value? then Root(st.aliases, inst.ptr.id) else inst.ptr;
    forall v: ValueId, t ensures (v, t) in st'.carried <==> (v, t) in st.carried || PutBehind(inst, st, v, t) {
      InOf(st.direct, inst.value, t);
      InOf(st.carried, inst.value, t);
      if root.Value? { InWith(st.carried, root.id, put, v, t); }
    }
  }

  lemma InReturned(env: Env, inst: Instruction, st: TaintState, t: Taint)
    requires inst.CallDirect? && inst.callee in env.table
    ensures t in Returned(env.table[inst.callee].ret, st, inst.args) <==> GivenBack(env, inst, st, t)
  {
    var ret := env.table[inst.callee].ret;
    if t in Returned(ret, st, inst.args) {
      var m := if ret.BorrowsFrom? then st.direct else st.carried;
      var k :| k in ret.indices && k < |inst.args| && t in OfOp(m, inst.args[k]);
      assert Borrows(ret, st, inst.args[k], k, t);
    }
    if GivenBack(env, inst, st, t) {
      var k :| 0 <= k < |inst.args| && Borrows(ret, st, inst.args[k], k, t);
      assert k in ret.indices && t in OfOp(if ret.BorrowsFrom? then st.direct else st.carried, inst.args[k]);
    }
  }

  lemma CallMeant(env: Env, id: ValueId, st: TaintState)
    requires id < |env.func.values| && env.func.values[id].CallDirect?
    ensures TaintsMeant(env, id, st, Transfer(env, id, st))
  {
    hide With, Without, Returned, GivenBack;
    var inst, st' := env.func.values[id], Transfer(env, id, st);
    if inst.callee in env.table {
      var ts := Returned(env.table[inst.callee].ret, st, inst.args);
      forall t ensures t in ts <==> GivenBack(env, inst, st, t) { InReturned(env, inst, st, t); }
      if t :| t in ts {
        forall v, u
          ensures (v, u) in st'.direct <==> if v == id then GivenBack(env, inst, st, u) else (v, u) in st.direct
        {
          InWith(Without(st.direct, id), id, ts, v, u);
          InWithout(st.direct, id, v, u);
        }
      }
    } else {
      NotGivenBack(env, inst, st);
    }
  }

  lemma NotGivenBack(env: Env, inst: Instruction, st: TaintState)
    requires !inst.CallDirect? || inst.callee !in env.table
    ensures forall t :: !GivenBack(env, inst, st, t)
  {}

  /** The table of taints, kind by kind. */
  lemma TransferMeant(env: Env, id: ValueId, st: TaintState)
    requires id < |env.func.values|
    ensures TaintsMeant(env, id, st, Transfer(env, id, st))
  {
    hide With, OfAll, DirectMeant, CarriedMeant, Root, Returned;
    var inst, st' := env.func.values[id], Transfer(env, id, st);
    match inst
    case Load(_) => LoadMeant(env, id, st);
    case Store(_, _) => StoreMeant(env, id, st);
    case CallDirect(_, _) => CallMeant(env, id, st);
    case Borrow(_, base) => CopiedMeant(env, id, st, [base], st');
    case MakeTraitObject(dataPtr, _) => CopiedMeant(env, id, st, [dataPtr], st');
    case MakeSlice(dataPtr, _) => CopiedMeant(env, id, st, [dataPtr], st');
    case FieldPtr(base, _) => CopiedMeant(env, id, st, [base], st');
    case Cast(value) => CopiedMeant(env, id, st, [value], st');
    case PtrOffset(ptr, _) => CopiedMeant(env, id, st, [ptr], st');
    case Variant(_, args) => CopiedMeant(env, id, st, args, st');
    case Extract(value, _, _) => CopiedMeant(env, id, st, [value], st');
    case Tag(value) => CopiedMeant(env, id, st, [value], st');
    case Binary(bin, left, right) => {
      CopiedNothing(st, id);
      BinaryPasses(bin, left, right);
      CopiedMeant(env, id, st, if PassesTaints(bin) then [left, right] else [], st');
    }
    case _ => {
      CopiedNothing(st, id);
      CopiedMeant(env, id, st, [], st');
    }
  }

  lemma BinaryPasses(bin: BinOp, left: Operand, right: Operand)
    ensures forall op :: PassesOn(Binary(bin, left, right), op) <==>
      op in (if PassesTaints(bin) then [left, right] else [])
  {}

  lemma CopiedNothing(st: TaintState, id: ValueId)
    ensures Copied(st, id, []) == st
  {}
}
