/** The kickoff function: it makes the environment of a task and binds the arguments in it. */
module AsyncKickoff {
  import opened Wrappers
  import opened Mvir
  import opened AsyncMachine
  import opened AsyncLowering
  import opened AsyncResume
  import opened AsyncSimulation
  import opened AsyncDispatch
  import opened AsyncCorrectness

  // ----- the code ------------------------------------------------------------------------

  function FieldOf(func: Function, v: ValueId): nat
    requires v < |func.values|
  {
    FIRST_LOCAL_FIELD + |LocalsTo(func.values, v)|
  }

  /** Copies argument `i`, if it is a local, into its field. */
  function ParamStep(func: Function, i: nat, base: nat): seq<Instruction> {
    if IsLocal(func, i) then
      [FieldPtr(Value(func.argCount), FieldOf(func, i)), Load(Value(i)), Store(Value(base), Value(base + 1))]
    else []
  }

  function ParamCode(func: Function, n: nat): seq<Instruction> {
    if n == 0 then []
    else
      var code := ParamCode(func, n - 1);
      code + ParamStep(func, n - 1, func.argCount + 8 + |code|)
  }

  /** The environment is allocated as value `env`; state and status are 0 and no future is awaited. */
  function HeaderCode(env: nat): seq<Instruction> {
    [HeapAlloc,
     FieldPtr(Value(env), STATE_FIELD), Store(Value(env + 1), Number("0")),
     FieldPtr(Value(env), STATUS_FIELD), Store(Value(env + 3), Number("0")),
     FieldPtr(Value(env), CHILD_FIELD), Null, Store(Value(env + 5), Value(env + 6))]
  }

  function KickoffCode(func: Function): seq<Instruction> {
    seq(func.argCount, i => Alloca) + HeaderCode(func.argCount) + ParamCode(func, func.argCount)
  }

  function Kickoff(func: Function): Function {
    var code := KickoffCode(func);
    Function(func.argCount, [BasicBlock("entry", seq(|code|, i => i), Some(Ret(Some(Value(func.argCount)))))], code)
  }

  method BuildKickoff(func: Function, allocaMap: map<ValueId, nat>) returns (kickoff: Function)
    requires forall v :: v in allocaMap <==> IsLocal(func, v)
    requires forall i :: 0 <= i < |Locals(func)| ==>
      Locals(func)[i] in allocaMap && allocaMap[Locals(func)[i]] == FIRST_LOCAL_FIELD + i
    ensures kickoff == Kickoff(func)
  {
    var values: seq<Instruction> := [];
    for i := 0 to func.argCount
      invariant values == seq(i, _ => Alloca)
    {
      values := values + [Alloca];
    }
    var env := |values|;
    values := values + HeaderCode(env);
    ghost var start := values;
    for i := 0 to func.argCount
      invariant values == start + ParamCode(func, i)
    {
      if i in allocaMap {
        FieldIsMapped(func, allocaMap, i);
        values := values + [FieldPtr(Value(env), allocaMap[i]), Load(Value(i)),
          Store(Value(|values|), Value(|values| + 1))];
      }
    }
    kickoff := Function(func.argCount, [BasicBlock("entry", seq(|values|, i => i), Some(Ret(Some(Value(env)))))],
      values);
  }

  lemma LocalsIndex(func: Function, v: ValueId)
    requires IsLocal(func, v)
    ensures |LocalsTo(func.values, v)| < |Locals(func)| && Locals(func)[|LocalsTo(func.values, v)|] == v
  {
    LocalsSnoc(func.values, v);
    LocalsPrefix(func.values, v + 1, |func.values|);
  }

  lemma FieldIsMapped(func: Function, allocaMap: map<ValueId, nat>, v: ValueId)
    requires IsLocal(func, v)
    requires forall i :: 0 <= i < |Locals(func)| ==>
      Locals(func)[i] in allocaMap && allocaMap[Locals(func)[i]] == FIRST_LOCAL_FIELD + i
    ensures v in allocaMap && allocaMap[v] == FieldOf(func, v)
  {
    LocalsIndex(func, v);
  }

  // ----- running it ----------------------------------------------------------------------

  /** As in a task, but the first values are the arguments' own slots. */
  function KExec<P, W>(
      sem: Sem<P, W>, layout: Layout, args: seq<P>, f: Frame<P>, w: W, id: ValueId,
      inst: Instruction): Option<(Frame<P>, W)>
  {
    match inst
    case Alloca => Some((f, w))
    case HeapAlloc => Some((Set(f, id, EnvPtr), w))
    case Load(Value(a)) =>
      if a < |args| then Some((Set(f, id, Prog(args[a])), w)) else Exec(sem, layout, f, w, id, inst)
    case _ => Exec(sem, layout, f, w, id, inst)
  }

  /** After the first `n` instructions of the first block; what the environment held before is
      `garbage`. */
  function KAfter<P, W>(
      k: Function, sem: Sem<P, W>, layout: Layout, args: seq<P>, garbage: Header<P>, w: W, n: nat): Option<(Frame<P>,
      W)>
    requires |k.blocks| > 0 && n <= |k.blocks[0].insts|
  {
    if n == 0 then Some((Frame(map[], map[], garbage), w))
    else
      var id := k.blocks[0].insts[n - 1];
      match KAfter(k, sem, layout, args, garbage, w, n - 1)
      case Some((f, w')) => if id < |k.values| then KExec(sem, layout, args, f, w', id, k.values[id]) else None
      case None => None
  }

  /** A call returns the environment, a task that waits to be polled. */
  function KCall<P, W>(
      k: Function, sem: Sem<P, W>, layout: Layout, args: seq<P>, garbage: Header<P>, w: W): Task<P, W> {
    if k.blocks == [] then Crashed
    else
      match (KAfter(k, sem, layout, args, garbage, w, |k.blocks[0].insts|), k.blocks[0].terminator)
      case (Some((f, w')), Some(Ret(Some(op)))) =>
        if ValueOf(sem, f, op) == Some(EnvPtr) then Suspended(f.header, w') else Crashed
      case _ => Crashed
  }

  /** The world once `arg` has been stored in local `v`. */
  function Stored<P, W>(sem: Sem<P, W>, v: ValueId, arg: P, w: W): W {
    sem.run(OpcodeOf(Store(Value(0), Value(0))), [sem.cell(v), arg], w).1
  }

  /** The world once the first `n` arguments have been stored in the locals they belong to. */
  function Bind<P, W>(func: Function, sem: Sem<P, W>, args: seq<P>, w: W, n: nat): W
    requires n <= |args|
  {
    if n == 0 then w
    else
      var before := Bind(func, sem, args, w, n - 1);
      if IsLocal(func, n - 1) then Stored(sem, n - 1, args[n - 1], before) else before
  }

  /** Kickoff comes to instruction `p` with these registers and in this world. */
  ghost predicate Came<P, W>(
      func: Function, sem: Sem<P, W>, args: seq<P>, garbage: Header<P>, w: W, p: nat, f: Frame<P>, w': W)
  {
    p <= |KickoffCode(func)| && KAfter(Kickoff(func), sem, LayoutFor(func), args, garbage, w, p) == Some((f, w'))
  }

  lemma KStep<P, W>(
      func: Function, sem: Sem<P, W>, args: seq<P>, garbage: Header<P>, w: W, p: nat, f: Frame<P>, w': W,
      g: Frame<P>, w'': W)
    requires Came(func, sem, args, garbage, w, p, f, w') && p < |KickoffCode(func)|
    requires KExec(sem, LayoutFor(func), args, f, w', p, KickoffCode(func)[p]) == Some((g, w''))
    ensures Came(func, sem, args, garbage, w, p + 1, g, w'')
  {
    hide KExec, KickoffCode;
  }

  lemma {:induction false} SlotsDoNothing<P, W>(
      func: Function, sem: Sem<P, W>, args: seq<P>, garbage: Header<P>, w: W, n: nat)
    requires n <= func.argCount
    ensures Came(func, sem, args, garbage, w, n, Frame(map[], map[], garbage), w)
  {
    hide Exec;
    if n > 0 {
      SlotsDoNothing(func, sem, args, garbage, w, n - 1);
      var f := Frame(map[], map[], garbage);
      KStep(func, sem, args, garbage, w, n - 1, f, w, f, w);
    }
  }

  lemma HeaderCodeAt(func: Function, i: nat)
    requires i < 8
    ensures func.argCount + i < |KickoffCode(func)|
      && KickoffCode(func)[func.argCount + i] == HeaderCode(func.argCount)[i]
  {
    hide ParamCode;
  }

  /** The environment is at hand and its header is that of a new task. */
  ghost predicate Made<P, W>(func: Function, sem: Sem<P, W>, f: Frame<P>) {
    Reg(f, func.argCount) == Some(EnvPtr) && f.header == Header(0, 0, sem.nul)
  }

  /** A number stored in one of the first two fields. */
  lemma HeaderField<P, W>(
      func: Function, sem: Sem<P, W>, args: seq<P>, garbage: Header<P>, w: W, p: nat, f: Frame<P>, i: nat)
      returns (g: Frame<P>)
    requires p > func.argCount && p + 1 < |KickoffCode(func)| && i < 2 && Reg(f, func.argCount) == Some(EnvPtr)
    requires Came(func, sem, args, garbage, w, p, f, w)
    requires KickoffCode(func)[p] == FieldPtr(Value(func.argCount), i)
    requires KickoffCode(func)[p + 1] == Store(Value(p), Number("0"))
    ensures Came(func, sem, args, garbage, w, p + 2, g, w)
    ensures Reg(g, func.argCount) == Some(EnvPtr)
    ensures g.header == if i == 0 then f.header.(state := 0) else f.header.(status := 0)
  {
    hide KickoffCode, Came;
    SmallNumbers();
    var f1 := Set(f, p, HeaderPtr(i));
    KStep(func, sem, args, garbage, w, p, f, w, f1, w);
    g := f1.(header := if i == 0 then f1.header.(state := 0) else f1.header.(status := 0));
    KStep(func, sem, args, garbage, w, p + 1, f1, w, g, w);
  }

  lemma ChildCode<P, W>(sem: Sem<P, W>, layout: Layout, args: seq<P>, f: Frame<P>, w: W, id: ValueId, env: ValueId)
    requires Reg(f, env) == Some(EnvPtr)
    ensures KExec(sem, layout, args, f, w, id, FieldPtr(Value(env), CHILD_FIELD)) == Some((Set(f, id, HeaderPtr(2)), w))
    ensures KExec(sem, layout, args, f, w, id, Null) == Some((Set(f, id, Prog(sem.nul)), w))
  {}

  lemma ChildStore<P, W>(
      sem: Sem<P, W>, layout: Layout, args: seq<P>, f: Frame<P>, w: W, id: ValueId, ptr: ValueId, value: ValueId, p: P)
    requires Reg(f, ptr) == Some(HeaderPtr(2)) && Reg(f, value) == Some(Prog(p))
    ensures KExec(sem, layout, args, f, w, id, Store(Value(ptr), Value(value)))
      == Some((f.(header := f.header.(child := p)), w))
  {}

  lemma NoChild<P, W>(
      func: Function, sem: Sem<P, W>, args: seq<P>, garbage: Header<P>, w: W, f: Frame<P>) returns (g: Frame<P>)
    requires Reg(f, func.argCount) == Some(EnvPtr) && |args| == func.argCount
    requires Came(func, sem, args, garbage, w, func.argCount + 5, f, w)
    ensures Came(func, sem, args, garbage, w, func.argCount + 8, g, w)
    ensures Reg(g, func.argCount) == Some(EnvPtr) && g.header == f.header.(child := sem.nul)
  {
    hide KickoffCode, Came, LayoutFor, KExec;
    var e := func.argCount;
    ChildCode(sem, LayoutFor(func), args, f, w, e + 5, e);
    var f1 := Set(f, e + 5, HeaderPtr(2));
    HeaderCodeAt(func, 5);
    KStep(func, sem, args, garbage, w, e + 5, f, w, f1, w);
    ChildCode(sem, LayoutFor(func), args, f1, w, e + 6, e);
    var f2 := Set(f1, e + 6, Prog(sem.nul));
    HeaderCodeAt(func, 6);
    KStep(func, sem, args, garbage, w, e + 6, f1, w, f2, w);
    ChildStore(sem, LayoutFor(func), args, f2, w, e + 7, e + 5, e + 6, sem.nul);
    g := f2.(header := f2.header.(child := sem.nul));
    HeaderCodeAt(func, 7);
    KStep(func, sem, args, garbage, w, e + 7, f2, w, g, w);
  }

  lemma HeaderMade<P, W>(func: Function, sem: Sem<P, W>, args: seq<P>, garbage: Header<P>, w: W) returns (f: Frame<P>)
    requires |args| == func.argCount
    ensures Came(func, sem, args, garbage, w, func.argCount + 8, f, w)
    ensures Made(func, sem, f)
  {
    hide KickoffCode, Came, Exec;
    var e := func.argCount;
    SlotsDoNothing(func, sem, args, garbage, w, e);
    HeaderCodeAt(func, 0);
    f := Set(Frame(map[], map[], garbage), e, EnvPtr);
    KStep(func, sem, args, garbage, w, e, Frame(map[], map[], garbage), w, f, w);
    HeaderCodeAt(func, 1);
    HeaderCodeAt(func, 2);
    f := HeaderField(func, sem, args, garbage, w, e + 1, f, 0);
    HeaderCodeAt(func, 3);
    HeaderCodeAt(func, 4);
    f := HeaderField(func, sem, args, garbage, w, e + 3, f, 1);
    f := NoChild(func, sem, args, garbage, w, f);
  }

  lemma {:induction false} ParamPrefix(func: Function, n: nat, m: nat)
    requires n <= m
    ensures ParamCode(func, n) <= ParamCode(func, m)
    decreases m - n
  {
    if n < m { ParamPrefix(func, n, m - 1); }
  }

  /** The position of the code for argument `n`. */
  function ParamStart(func: Function, n: nat): nat {
    func.argCount + 8 + |ParamCode(func, n)|
  }

  lemma ParamPlaced(func: Function, i: nat, k: nat)
    requires i < func.argCount
    ensures var p := ParamStart(func, i);
            && p + |ParamStep(func, i, p)| <= |KickoffCode(func)|
            && (k < |ParamStep(func, i, p)| ==> KickoffCode(func)[p + k] == ParamStep(func, i, p)[k])
            && ParamStart(func, i + 1) == p + |ParamStep(func, i, p)|
  {
    hide ParamStep;
    ParamPrefix(func, i + 1, func.argCount);
    var p := ParamStart(func, i);
    assert ParamCode(func, i + 1) == ParamCode(func, i) + ParamStep(func, i, p);
  }

  lemma LocalField<P, W>(func: Function, sem: Sem<P, W>, v: ValueId)
    requires IsLocal(func, v)
    ensures EnvField(sem, LayoutFor(func), FieldOf(func, v)) == Some(Prog(sem.cell(v)))
  {
    LocalsIndex(func, v);
  }

  /** One argument is loaded and stored in the local it belongs to. */
  lemma ParamBound<P, W>(
      func: Function, sem: Sem<P, W>, args: seq<P>, garbage: Header<P>, w: W, i: nat, f: Frame<P>, w': W)
      returns (g: Frame<P>)
    requires |args| == func.argCount && i < func.argCount && IsLocal(func, i) && Made(func, sem, f)
    requires Came(func, sem, args, garbage, w, ParamStart(func, i), f, w')
    ensures Came(func, sem, args, garbage, w, ParamStart(func, i) + 3, g, Stored(sem, i, args[i], w'))
    ensures Made(func, sem, g)
  {
    hide KickoffCode, Came, ParamCode, LayoutFor, EnvField;
    var p := ParamStart(func, i);
    LocalField(func, sem, i);
    ParamPlaced(func, i, 0);
    var f1 := Set(f, p, Prog(sem.cell(i)));
    KStep(func, sem, args, garbage, w, p, f, w', f1, w');
    ParamPlaced(func, i, 1);
    var f2 := Set(f1, p + 1, Prog(args[i]));
    KStep(func, sem, args, garbage, w, p + 1, f1, w', f2, w');
    ParamPlaced(func, i, 2);
    g := StoreBinds(sem, LayoutFor(func), f2, w', p, i, args[i]);
    KStep(func, sem, args, garbage, w, p + 2, f2, w', g, Stored(sem, i, args[i], w'));
  }

  lemma StoreBinds<P, W>(sem: Sem<P, W>, layout: Layout, f: Frame<P>, w: W, p: nat, i: ValueId, arg: P)
      returns (g: Frame<P>)
    requires Reg(f, p) == Some(Prog(sem.cell(i))) && Reg(f, p + 1) == Some(Prog(arg))
    ensures Exec(sem, layout, f, w, p + 2, Store(Value(p), Value(p + 1))) == Some((g, Stored(sem, i, arg, w)))
    ensures g.header == f.header && forall v: ValueId :: v < p ==> Reg(g, v) == Reg(f, v)
  {
    var args, rest := [p, p + 1], [p + 1];
    assert args[1..] == rest && rest[1..] == [];
    assert ProgArgs(f, rest[1..]) == Some([]);
    assert [arg] + [] == [arg] && [sem.cell(i)] + [arg] == [sem.cell(i), arg];
    assert ProgArgs(f, rest) == Some([arg]);
    assert ProgArgs(f, args) == Some([sem.cell(i), arg]);
    assert Args(Store(Value(p), Value(p + 1))) == args;
    StoreOpcode(p, p + 1);
    StoreOpcode(0, 0);
    g := Set(f, p + 2, Prog(sem.run(OpcodeOf(Store(Value(0), Value(0))), [sem.cell(i), arg], w).0));
  }

  lemma {:induction false} ParamsBound<P, W>(
      func: Function, sem: Sem<P, W>, args: seq<P>, garbage: Header<P>, w: W, n: nat)
      returns (f: Frame<P>)
    requires |args| == func.argCount && n <= func.argCount
    ensures Came(func, sem, args, garbage, w, ParamStart(func, n), f, Bind(func, sem, args, w, n))
    ensures Made(func, sem, f)
    decreases n
  {
    hide Came, Made, KickoffCode;
    if n == 0 {
      f := HeaderMade(func, sem, args, garbage, w);
    } else {
      f := ParamsBound(func, sem, args, garbage, w, n - 1);
      ParamPlaced(func, n - 1, 0);
      if IsLocal(func, n - 1) {
        f := ParamBound(func, sem, args, garbage, w, n - 1, f, Bind(func, sem, args, w, n - 1));
      }
    }
  }

  /** Kickoff leaves a task in state 0 that awaits nothing, its arguments in their locals. */
  lemma KickoffStarts<P, W>(func: Function, sem: Sem<P, W>, args: seq<P>, garbage: Header<P>, w: W)
    requires |args| == func.argCount
    ensures KCall(Kickoff(func), sem, LayoutFor(func), args, garbage, w)
      == Kicked(sem, Bind(func, sem, args, w, func.argCount))
  {
    hide KAfter, LayoutFor, ParamCode, Bind;
    var f := ParamsBound(func, sem, args, garbage, w, func.argCount);
    assert |KickoffCode(func)| == ParamStart(func, func.argCount);
  }

  /** Kickoff followed by polling until ready does what a call of the function does: it returns
      the same value, and has done the same to the world. */
  lemma CallPreserved<P(!new), W(!new)>(
      func: Function, c: Cursor, sem: Sem<P, W>, live: LiveAt, args: seq<P>, garbage: Header<P>, w: W, n: nat,
      value: Option<P>, w': W)
    requires Built(func, c) && func.blocks != [] && NothingCrossesAwaits(func, live) && |args| == func.argCount
    requires Steps(func, sem, Start(Bind(func, sem, args, w, func.argCount)), n) == Done(value, w')
    ensures var task := KCall(Kickoff(func), sem, LayoutFor(func), args, garbage, w);
            exists h: Header<P> ::
              && h.state == FUTURE_STATE_COMPLETED
              && Reaches(Resume(func, c), sem, LayoutFor(func), task, Ready(value, h, w'))
  {
    hide Built, Reaches, Resume, Steps, NothingCrossesAwaits, KCall, Kickoff, Bind, LayoutFor;
    KickoffStarts(func, sem, args, garbage, w);
    LoweringPreservesMeaning(func, c, sem, live, Bind(func, sem, args, w, func.argCount), n, value, w');
  }
}
