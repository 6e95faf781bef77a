/** Effect inference for one function: which arguments a value may stem from, and what each
    instruction so does to the arguments. */
module EffectTaints {
  import opened Wrappers
  import opened Mvir
  import opened Effects
  import opened ForwardDataflow

  /** Stems from an argument itself, or from what the argument carries. */
  datatype Taint = Direct(arg: nat) | Carried(arg: nat)

  /** Which value has which taint. */
  type Taints = set<(ValueId, Taint)>

  datatype TaintState = TaintState(direct: Taints, carried: Taints, aliases: map<ValueId, Operand>)

  /** `table` holds the summaries of other functions; a function whose result type holds no
      reference returns no borrow. */
  datatype Env = Env(func: Function, table: map<string, Summary>, returnsBorrow: bool)

  function Of(m: Taints, v: ValueId): set<Taint> {
    set p | p in m && p.0 == v :: p.1
  }

  function OfOp(m: Taints, op: Operand): set<Taint> {
    if op.Value? then Of(m, op.id) else {}
  }

  function OfAll(m: Taints, ops: seq<Operand>): set<Taint> {
    set k, t | 0 <= k < |ops| && t in OfOp(m, ops[k]) :: t
  }

  function With(m: Taints, v: ValueId, ts: set<Taint>): Taints {
    m + (set t | t in ts :: (v, t))
  }

  function Without(m: Taints, v: ValueId): Taints {
    set p | p in m && p.0 != v
  }

  // ----- taints --------------------------------------------------------------------------

  /** The end of an alias chain; aliases lead to smaller values. */
  function Root(aliases: map<ValueId, Operand>, v: ValueId): Operand {
    if v !in aliases then Value(v)
    else if !aliases[v].Value? then aliases[v]
    else if aliases[v].id < v then Root(aliases, aliases[v].id)
    else Value(v)
  }

  function Copied(st: TaintState, id: ValueId, ops: seq<Operand>): TaintState {
    st.(direct := With(st.direct, id, OfAll(st.direct, ops)), carried := With(st.carried, id, OfAll(st.carried, ops)))
  }

  function Aliased(st: TaintState, id: ValueId, op: Operand): TaintState {
    var r := Copied(st, id, [op]);
    if op.Value? then r.(aliases := st.aliases[id := op]) else r
  }

  predicate PassesTaints(bin: BinOp) {
    bin !in {NotEq, BitAnd, BitOr, BitXor, Shl, Shr}
  }

  /** Where a call's result may come from, by the summary of the called function. */
  function Returned(ret: ReturnEffect, st: TaintState, args: seq<Operand>): set<Taint> {
    match ret
    case BorrowsFrom(indices) => set k, t | k in indices && k < |args| && t in OfOp(st.direct, args[k]) :: t
    case BorrowsCarried(indices) => set k, t | k in indices && k < |args| && t in OfOp(st.carried, args[k]) :: t
    case _ => {}
  }

  function Transfer(env: Env, id: ValueId, st: TaintState): TaintState {
    if id >= |env.func.values| then st
    else
      match env.func.values[id]
      case Load(ptr) =>
        var ts := OfOp(st.carried, ptr);
        st.(direct := With(st.direct, id, ts), carried := With(st.carried, id, ts))
      case Store(ptr, value) =>
        if ptr.Value? && Root(st.aliases, ptr.id).Value?
        then st.(carried := With(st.carried, Root(st.aliases, ptr.id).id, OfOp(st.direct, value)
          + OfOp(st.carried, value)))
        else st
      case Borrow(_, base) => Aliased(st, id, base)
      case MakeTraitObject(dataPtr, _) => Aliased(st, id, dataPtr)
      case MakeSlice(dataPtr, _) => Aliased(st, id, dataPtr)
      case FieldPtr(base, _) => Aliased(st, id, base)
      case Cast(value) => Aliased(st, id, value)
      case PtrOffset(ptr, _) => Aliased(st, id, ptr)
      case Variant(_, args) => Copied(st, id, args)
      case Extract(value, _, _) => Copied(st, id, [value])
      case Tag(value) => Copied(st, id, [value])
      case Binary(bin, left, right) => if PassesTaints(bin) then Copied(st, id, [left, right]) else st
      case CallDirect(callee, args) =>
        if callee in env.table && Returned(env.table[callee].ret, st, args) != {}
        then st.(direct := With(Without(st.direct, id), id, Returned(env.table[callee].ret, st, args)))
        else st
      case _ => st
  }

  // ----- effects -------------------------------------------------------------------------

  function NoEffect(): ArgEffect {
    ArgEffect(NoAccess, Copy, NoEscape)
  }

  function UnknownEffect(): ArgEffect {
    ArgEffect(UnknownAccess, UnknownOwnership, UnknownEscape)
  }

  /** The effect `e` on argument `i`, if `i` is among the taints. */
  function On(ts: set<Taint>, i: nat, e: ArgEffect): ArgEffect {
    if Direct(i) in ts then e else NoEffect()
  }

  /** The `k`-th argument of a call has effect `effects(k)`. */
  function OnEach(m: Taints, args: seq<Operand>, i: nat, effects: nat -> ArgEffect): ArgEffect {
    if args == [] then NoEffect()
    else
      var last := |args| - 1;
      ArgMerge(OnEach(m, args[..last], i, effects), On(OfOp(m, args[last]), i, effects(last)))
  }

  function CallEffects(env: Env, callee: string): nat -> ArgEffect {
    (k: nat) =>
      if callee in env.table then
        if k < |env.table[callee].args| then env.table[callee].args[k] else NoEffect()
      else if callee == "extern_mutate" && k == 0 then ArgEffect(ReadWrite, BorrowMut, MayEscape)
      else UnknownEffect()
  }

  function AllUnknown(): nat -> ArgEffect {
    (k: nat) => UnknownEffect()
  }

  /** What an instruction does to argument `i`. */
  function EffectOn(env: Env, id: ValueId, st: TaintState, i: nat): ArgEffect {
    if id >= |env.func.values| then NoEffect()
    else
      match env.func.values[id]
      case Load(ptr) => On(OfOp(st.direct, ptr), i, NoEffect().(access := Read))
      case Store(ptr, value) => StoreEffect(ptr, value, st, i)
      case Borrow(isRw, base) =>
        On(OfOp(st.direct, base), i, NoEffect().(ownership := if isRw then BorrowMut else BorrowShared))
      case CallDirect(callee, args) => OnEach(st.direct, args, i, CallEffects(env, callee))
      case CallIndirect(_, args) => OnEach(st.direct, args, i, AllUnknown())
      case CallClosure(_, args) => OnEach(st.direct, args, i, AllUnknown())
      case CallVirt(obj, _, args) => OnEach(st.direct, [obj] + args, i, AllUnknown())
      case DropVirt(obj) => On(OfOp(st.direct, obj), i, UnknownEffect().(escape := NoEscape))
      case _ => NoEffect()
  }

  function StoreEffect(ptr: Operand, value: Operand, st: TaintState, i: nat): ArgEffect {
    ArgMerge(On(OfOp(st.direct, ptr), i, NoEffect().(access := Write)),
             On(OfOp(st.direct, value), i, ArgEffect(NoAccess, Consume, if ptr.Global? then MayEscape else NoEscape)))
  }

  function Noted(env: Env, id: ValueId, st: TaintState, s: Summary): Summary {
    s.(args := seq(|s.args|, i requires 0 <= i < |s.args| => ArgMerge(s.args[i], EffectOn(env, id, st, i))))
  }

  // ----- returns -------------------------------------------------------------------------

  /** The arguments among the first `n` that a taint of the given kind stems from, in order. */
  function ArgsOf(ts: set<Taint>, direct: bool, n: nat): (r: seq<nat>)
    ensures forall i: nat :: i in r <==> i < n && (if direct then Direct(i) else Carried(i)) in ts
    ensures Strict(r)
  {
    if n == 0 then []
    else
      var r := ArgsOf(ts, direct, n - 1);
      assert forall k :: 0 <= k < |r| ==> r[k] in r;
      if (if direct then Direct(n - 1) else Carried(n - 1)) in ts then r + [n - 1] else r
  }

  function ReturnEffectOf(ts: set<Taint>, ret: ReturnEffect, n: nat): ReturnEffect {
    var direct, carried := ArgsOf(ts, true, n), ArgsOf(ts, false, n);
    var first := if direct == [] then ret else ReturnMerge(ret, BorrowsFrom(direct));
    if carried == [] then first else ReturnMerge(first, BorrowsCarried(carried))
  }

  function NotedReturn(env: Env, term: Terminator, st: TaintState, s: Summary): Summary {
    match term
    case Ret(Some(op)) =>
      if !env.returnsBorrow then s
      else
        var ts := OfOp(st.direct, op);
        Summary(seq(|s.args|, i requires 0 <= i < |s.args| => ArgMerge(s.args[i],
          On(ts, i, NoEffect().(ownership := Consume)))),
                ReturnEffectOf(ts, s.ret, |s.args|), s.isOpaque)
    case _ => s
  }

  // ----- merging an effect into the entries of some arguments -----------------------------

  function Touched(s: Summary, ts: set<Taint>, e: ArgEffect): Summary {
    s.(args := seq(|s.args|, i requires 0 <= i < |s.args| => ArgMerge(s.args[i], On(ts, i, e))))
  }

  /** Taints speak of the function's arguments. */
  ghost predicate Fits(m: Taints, n: nat) {
    forall p :: p in m ==> p.1.arg < n
  }

  /** What instruction `id` reads has a smaller number, as values are numbered when built. */
  ghost predicate AliasesDescend(aliases: map<ValueId, Operand>) {
    forall v :: v in aliases ==> aliases[v].Value? && aliases[v].id < v
  }

  lemma MergeLaws(a: ArgEffect, b: ArgEffect, c: ArgEffect)
    ensures ArgMerge(a, ArgMerge(b, c)) == ArgMerge(ArgMerge(a, b), c)
    ensures ArgMerge(a, b) == ArgMerge(b, a) && ArgMerge(a, a) == a
    ensures ArgMerge(a, NoEffect()) == a && ArgMerge(NoEffect(), a) == a
  {}

  lemma Untouched(s: Summary)
    ensures forall i :: 0 <= i < |s.args| ==> ArgMerge(s.args[i], NoEffect()) == s.args[i]
  {
    forall i | 0 <= i < |s.args| ensures ArgMerge(s.args[i], NoEffect()) == s.args[i] {
      MergeLaws(s.args[i], NoEffect(), NoEffect());
    }
  }
}
