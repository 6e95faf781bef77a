/** What functions do when they run, before and after async lowering, over given meanings of
    the IR's instructions. */
module AsyncMachine {
  import opened Wrappers
  import opened Mvir
  import opened Decimal
  import opened Shapes

  // ----- instructions and the values they are applied to ---------------------------------

  function OpArg(op: Operand): seq<ValueId> {
    if op.Value? then [op.id] else []
  }

  function OpArgs(ops: seq<Operand>): seq<ValueId> {
    if ops == [] then [] else OpArg(ops[0]) + OpArgs(ops[1..])
  }

  function Args(inst: Instruction): seq<ValueId> {
    match inst
    case Assign(op) => OpArg(op)
    case Store(ptr, value) => OpArg(ptr) + OpArg(value)
    case Load(ptr) => OpArg(ptr)
    case Binary(_, left, right) => OpArg(left) + OpArg(right)
    case CallDirect(_, args) => OpArgs(args)
    case CallIndirect(target, args) => OpArg(target) + OpArgs(args)
    case CallClosure(closure, args) => OpArg(closure) + OpArgs(args)
    case CallIntrinsic(_, args) => OpArgs(args)
    case MakeClosure(_, envPtr, captures) => OpArg(envPtr) + Sources(captures)
    case CallVirt(obj, _, args) => OpArg(obj) + OpArgs(args)
    case MakeTraitObject(dataPtr, _) => OpArg(dataPtr)
    case MakeSlice(dataPtr, len) => OpArg(dataPtr) + OpArg(len)
    case DropVirt(obj) => OpArg(obj)
    case BoundsCheck(index, len) => OpArg(index) + OpArg(len)
    case Borrow(_, base) => OpArg(base)
    case Variant(_, args) => OpArgs(args)
    case Tag(value) => OpArg(value)
    case Extract(value, _, _) => OpArg(value)
    case FieldPtr(base, _) => OpArg(base)
    case HeapFree(value) => OpArg(value)
    case MarkInit(value) => OpArg(value)
    case Drop(value, _) => OpArg(value)
    case PtrOffset(ptr, offset) => OpArg(ptr) + OpArg(offset)
    case Cast(value) => OpArg(value)
    case Await(future) => OpArg(future)
    case _ => []
  }

  function MapOp(op: Operand, g: ValueId -> ValueId): Operand {
    if op.Value? then Value(g(op.id)) else op
  }

  function MapOps(ops: seq<Operand>, g: ValueId -> ValueId): (r: seq<Operand>)
    ensures |r| == |ops|
  {
    if ops == [] then [] else [MapOp(ops[0], g)] + MapOps(ops[1..], g)
  }

  function MapCaptures(cs: seq<Capture>, g: ValueId -> ValueId): seq<Capture> {
    seq(|cs|, i requires 0 <= i < |cs| => cs[i].(source := g(cs[i].source)))
  }

  /** The instruction with its operand values replaced. */
  function MapInst(inst: Instruction, g: ValueId -> ValueId): Instruction {
    match inst
    case Assign(op) => Assign(MapOp(op, g))
    case Store(ptr, value) => Store(MapOp(ptr, g), MapOp(value, g))
    case Load(ptr) => Load(MapOp(ptr, g))
    case Binary(bin, left, right) => Binary(bin, MapOp(left, g), MapOp(right, g))
    case CallDirect(callee, args) => CallDirect(callee, MapOps(args, g))
    case CallIndirect(target, args) => CallIndirect(MapOp(target, g), MapOps(args, g))
    case CallClosure(closure, args) => CallClosure(MapOp(closure, g), MapOps(args, g))
    case CallIntrinsic(kind, args) => CallIntrinsic(kind, MapOps(args, g))
    case MakeClosure(func, envPtr, captures) => MakeClosure(func, MapOp(envPtr, g), MapCaptures(captures, g))
    case CallVirt(obj, methodIdx, args) => CallVirt(MapOp(obj, g), methodIdx, MapOps(args, g))
    case MakeTraitObject(dataPtr, vtable) => MakeTraitObject(MapOp(dataPtr, g), vtable)
    case MakeSlice(dataPtr, len) => MakeSlice(MapOp(dataPtr, g), MapOp(len, g))
    case DropVirt(obj) => DropVirt(MapOp(obj, g))
    case BoundsCheck(index, len) => BoundsCheck(MapOp(index, g), MapOp(len, g))
    case Borrow(isRw, base) => Borrow(isRw, MapOp(base, g))
    case Variant(variantIdx, args) => Variant(variantIdx, MapOps(args, g))
    case Tag(value) => Tag(MapOp(value, g))
    case Extract(value, variantIdx, fieldIdx) => Extract(MapOp(value, g), variantIdx, fieldIdx)
    case FieldPtr(base, fieldIdx) => FieldPtr(MapOp(base, g), fieldIdx)
    case HeapFree(value) => HeapFree(MapOp(value, g))
    case MarkInit(value) => MarkInit(MapOp(value, g))
    case Drop(value, dropFn) => Drop(MapOp(value, g), dropFn)
    case PtrOffset(ptr, offset) => PtrOffset(MapOp(ptr, g), MapOp(offset, g))
    case Cast(value) => Cast(MapOp(value, g))
    case Await(future) => Await(MapOp(future, g))
    case _ => inst
  }

  function Image(vs: seq<ValueId>, g: ValueId -> ValueId): seq<ValueId> {
    seq(|vs|, i requires 0 <= i < |vs| => g(vs[i]))
  }

  lemma ImageConcat(a: seq<ValueId>, b: seq<ValueId>, g: ValueId -> ValueId)
    ensures Image(a + b, g) == Image(a, g) + Image(b, g)
  {}

  function Sources(cs: seq<Capture>): seq<ValueId> {
    seq(|cs|, i requires 0 <= i < |cs| => cs[i].source)
  }

  /** What is left of operands when the values are taken out. */
  function Literals(ops: seq<Operand>): seq<Option<Operand>> {
    if ops == [] then [] else [if ops[0].Value? then None else Some(ops[0])] + Literals(ops[1..])
  }

  /** What an instruction does, its operand values aside. */
  datatype Opcode = Opcode(shape: Shape, literals: seq<Option<Operand>>)

  function OpcodeOf(inst: Instruction): Opcode {
    Opcode(ShapeOf(inst), Literals(Operands(inst)))
  }

  lemma StoreOpcode(p: ValueId, q: ValueId)
    ensures OpcodeOf(Store(Value(p), Value(q))) == Opcode(StoreShape, [None, None])
  {
    var ops := [Value(p), Value(q)];
    assert ops[1..] == [Value(q)] && ops[1..][1..] == [];
    assert Literals(ops[1..]) == [None] + Literals([]) == [None];
    assert Literals(ops) == [None] + Literals(ops[1..]) == [None, None];
  }

  // ----- nothing is lost, nothing but the values is replaced -----------------------------

  lemma {:induction false} CapturedArgs(cs: seq<Capture>)
    ensures OpArgs(Captured(cs)) == Sources(cs)
  {
    if cs != [] {
      CapturedArgs(cs[1..]);
      assert Sources(cs) == [cs[0].source] + Sources(cs[1..]);
      ConsArgs(Value(cs[0].source), Captured(cs[1..]));
    }
  }

  lemma ConsArgs(op: Operand, ops: seq<Operand>)
    ensures OpArgs([op] + ops) == OpArg(op) + OpArgs(ops)
    ensures Literals([op] + ops) == [if op.Value? then None else Some(op)] + Literals(ops)
    ensures forall g :: MapOps([op] + ops, g) == [MapOp(op, g)] + MapOps(ops, g)
  {
    assert ([op] + ops)[1..] == ops;
  }

  lemma PairArgs(a: Operand, b: Operand)
    ensures OpArgs([a]) == OpArg(a) && OpArgs([a, b]) == OpArg(a) + OpArg(b)
    ensures forall g :: MapOps([a], g) == [MapOp(a, g)] && MapOps([a, b], g) == [MapOp(a, g), MapOp(b, g)]
  {
    assert [a] == [a] + [] && [a, b] == [a] + [b] && [b] == [b] + [];
    ConsArgs(a, []);
    ConsArgs(b, []);
    ConsArgs(a, [b]);
  }

  /** The values an instruction is applied to are those among its operands, in order. */
  lemma ArgsAreOperands(inst: Instruction)
    ensures Args(inst) == OpArgs(Operands(inst))
  {
    hide OpArg, OpArgs, Captured, Sources;
    var ops := Operands(inst);
    forall a ensures OpArgs([a]) == OpArg(a) { PairArgs(a, a); }
    forall a, b ensures OpArgs([a, b]) == OpArg(a) + OpArg(b) { PairArgs(a, b); }
    forall a, xs ensures OpArgs([a] + xs) == OpArg(a) + OpArgs(xs) { ConsArgs(a, xs); }
    forall cs ensures OpArgs(Captured(cs)) == Sources(cs) { CapturedArgs(cs); }
    NoArgs();
  }

  lemma NoArgs()
    ensures OpArgs([]) == [] && Literals([]) == []
  {}

  lemma {:induction false} OperandsDetermined(xs: seq<Operand>, ys: seq<Operand>)
    requires OpArgs(xs) == OpArgs(ys) && Literals(xs) == Literals(ys)
    ensures xs == ys
  {
    LiteralsLength(xs);
    LiteralsLength(ys);
    if xs != [] {
      assert Literals(xs)[0] == Literals(ys)[0];
      assert Literals(xs)[1..] == Literals(xs[1..]) && Literals(ys)[1..] == Literals(ys[1..]);
      assert xs[0].Value? <==> ys[0].Value?;
      if xs[0].Value? {
        assert OpArgs(xs)[0] == xs[0].id && OpArgs(ys)[0] == ys[0].id;
        assert OpArgs(xs)[1..] == OpArgs(xs[1..]) && OpArgs(ys)[1..] == OpArgs(ys[1..]);
      } else {
        assert OpArgs(xs) == OpArgs(xs[1..]) && OpArgs(ys) == OpArgs(ys[1..]);
      }
      OperandsDetermined(xs[1..], ys[1..]);
      assert xs == [xs[0]] + xs[1..] && ys == [ys[0]] + ys[1..];
    }
  }

  lemma {:induction false} LiteralsLength(ops: seq<Operand>)
    ensures |Literals(ops)| == |ops|
  {
    if ops != [] { LiteralsLength(ops[1..]); }
  }

  /** An opcode and the values it is applied to determine the instruction. */
  lemma OpcodeDetermines(a: Instruction, b: Instruction)
    requires OpcodeOf(a) == OpcodeOf(b) && Args(a) == Args(b)
    ensures a == b
  {
    ArgsAreOperands(a);
    ArgsAreOperands(b);
    OperandsDetermined(Operands(a), Operands(b));
    Determined(a, b);
  }

  lemma {:induction false} OpsMapped(ops: seq<Operand>, g: ValueId -> ValueId)
    ensures OpArgs(MapOps(ops, g)) == Image(OpArgs(ops), g)
    ensures Literals(MapOps(ops, g)) == Literals(ops)
  {
    if ops != [] {
      OpsMapped(ops[1..], g);
      ImageConcat(OpArg(ops[0]), OpArgs(ops[1..]), g);
      assert OpArg(MapOp(ops[0], g)) == Image(OpArg(ops[0]), g);
      assert MapOps(ops, g)[1..] == MapOps(ops[1..], g);
    }
  }

  lemma {:induction false} CapturesMapped(cs: seq<Capture>, g: ValueId -> ValueId)
    ensures Captured(MapCaptures(cs, g)) == MapOps(Captured(cs), g) && Modes(MapCaptures(cs, g)) == Modes(cs)
  {
    if cs != [] {
      CapturesMapped(cs[1..], g);
      assert MapCaptures(cs, g)[1..] == MapCaptures(cs[1..], g);
      ConsArgs(Value(cs[0].source), Captured(cs[1..]));
    }
  }

  /** The shape stays, and each operand is replaced in its place. */
  lemma OperandsMapped(inst: Instruction, g: ValueId -> ValueId)
    ensures ShapeOf(MapInst(inst, g)) == ShapeOf(inst) && Operands(MapInst(inst, g)) == MapOps(Operands(inst), g)
  {
    hide MapOp, MapOps, MapCaptures, Captured, Modes;
    forall a ensures MapOps([a], g) == [MapOp(a, g)] { PairArgs(a, a); }
    forall a, b ensures MapOps([a, b], g) == [MapOp(a, g), MapOp(b, g)] { PairArgs(a, b); }
    forall a, xs ensures MapOps([a] + xs, g) == [MapOp(a, g)] + MapOps(xs, g) { ConsArgs(a, xs); }
    forall cs ensures Captured(MapCaptures(cs, g)) == MapOps(Captured(cs), g)
      && Modes(MapCaptures(cs, g)) == Modes(cs) {
      CapturesMapped(cs, g);
    }
    NoneMapped(g);
  }

  lemma NoneMapped(g: ValueId -> ValueId)
    ensures MapOps([], g) == []
  {}

  /** Replacing operands replaces the values an instruction is applied to, in place, and does not
      change what it does with them. */
  lemma InstMapped(inst: Instruction, g: ValueId -> ValueId)
    ensures Args(MapInst(inst, g)) == Image(Args(inst), g) && OpcodeOf(MapInst(inst, g)) == OpcodeOf(inst)
  {
    hide MapInst, Args, Operands, ShapeOf;
    OperandsMapped(inst, g);
    OpsMapped(Operands(inst), g);
    ArgsAreOperands(inst);
    ArgsAreOperands(MapInst(inst, g));
  }

  /** Replacing every value by itself gives back the instruction. */
  lemma SameMapped(inst: Instruction)
    ensures MapInst(inst, v => v) == inst
  {
    hide MapInst, Args, OpcodeOf;
    var g := (v: ValueId) => v;
    InstMapped(inst, g);
    assert Image(Args(inst), g) == Args(inst);
    OpcodeDetermines(MapInst(inst, g), inst);
  }

  lemma {:induction false} OpsAgree(ops: seq<Operand>, g: ValueId -> ValueId, h: ValueId -> ValueId)
    requires forall v :: v in OpArgs(ops) ==> g(v) == h(v)
    ensures MapOps(ops, g) == MapOps(ops, h)
  {
    if ops != [] {
      assert forall v :: v in OpArgs(ops[1..]) ==> v in OpArgs(ops);
      assert forall v :: v in OpArg(ops[0]) ==> v in OpArgs(ops);
      assert ops[0].Value? ==> ops[0].id in OpArg(ops[0]);
      OpsAgree(ops[1..], g, h);
    }
  }

  ghost predicate AgreeOn(vs: seq<ValueId>, g: ValueId -> ValueId, h: ValueId -> ValueId) {
    forall v :: v in vs ==> g(v) == h(v)
  }

  lemma OpAgrees(op: Operand, g: ValueId -> ValueId, h: ValueId -> ValueId)
    requires AgreeOn(OpArg(op), g, h)
    ensures MapOp(op, g) == MapOp(op, h)
  {
    if op.Value? { assert op.id in OpArg(op); }
  }

  /** Only the values an instruction is applied to matter to a replacement. */
  lemma InstAgrees(inst: Instruction, g: ValueId -> ValueId, h: ValueId -> ValueId)
    requires AgreeOn(Args(inst), g, h)
    ensures MapInst(inst, g) == MapInst(inst, h)
  {
    hide MapInst, Args, Operands, ShapeOf, MapOps;
    OperandsMapped(inst, g);
    OperandsMapped(inst, h);
    ArgsAreOperands(inst);
    OpsAgree(Operands(inst), g, h);
    Determined(MapInst(inst, g), MapInst(inst, h));
  }

  // ----- meanings ------------------------------------------------------------------------

  /** `P` are the values of the program and `W` is everything instructions act on: memory, the
      outside, the instructions executed so far. `cell(v)` is the address of local `v`. */
  datatype Sem<!P, !W> = Sem(
    cell: ValueId -> P,
    lit: Operand -> P,
    nul: P,
    truth: P -> bool,
    run: (Opcode, seq<P>, W) -> (P, W),
    await: (P, W) -> (P, W))

  predicate IsLocal(func: Function, v: ValueId) {
    v < |func.values| && func.values[v].Alloca?
  }

  function FindBlock(blocks: seq<BasicBlock>, name: Label): Option<nat> {
    if blocks == [] then None
    else if blocks[0].name == name then Some(0)
    else match FindBlock(blocks[1..], name)
      case Some(i) => Some(i + 1)
      case None => None
  }

  lemma {:induction false} FindBlockFinds(blocks: seq<BasicBlock>, i: nat)
    requires DistinctLabels(blocks) && i < |blocks|
    ensures FindBlock(blocks, blocks[i].name) == Some(i)
  {
    if i > 0 {
      assert blocks[0].name != blocks[i].name;
      FindBlockFinds(blocks[1..], i - 1);
    }
  }

  lemma {:induction false} FindBlockSound(blocks: seq<BasicBlock>, name: Label)
    ensures FindBlock(blocks, name).Some? ==>
      FindBlock(blocks, name).value < |blocks| && blocks[FindBlock(blocks, name).value].name == name
    ensures FindBlock(blocks, name).None? ==> forall i :: 0 <= i < |blocks| ==> blocks[i].name != name
  {
    if blocks != [] && blocks[0].name != name {
      FindBlockSound(blocks[1..], name);
    }
  }

  // ----- the function as it is written ---------------------------------------------------

  /** Before instruction `j` of block `b`, or finished. */
  datatype Config<P, W> =
    | At(b: nat, j: nat, regs: map<ValueId, P>, w: W)
    | Done(value: Option<P>, w: W)
    | Stuck

  function Eval<P, W>(func: Function, sem: Sem<P, W>, regs: map<ValueId, P>, v: ValueId): Option<P> {
    if IsLocal(func, v) then Some(sem.cell(v)) else if v in regs then Some(regs[v]) else None
  }

  function EvalOp<P, W>(func: Function, sem: Sem<P, W>, regs: map<ValueId, P>, op: Operand): Option<P> {
    if op.Value? then Eval(func, sem, regs, op.id) else Some(sem.lit(op))
  }

  function EvalAll<P, W>(func: Function, sem: Sem<P, W>, regs: map<ValueId, P>, vs: seq<ValueId>): Option<seq<P>> {
    if vs == [] then Some([])
    else
      var first, rest := Eval(func, sem, regs, vs[0]), EvalAll(func, sem, regs, vs[1..]);
      if first.None? || rest.None? then None else Some([first.value] + rest.value)
  }

  function Goto<P, W>(func: Function, name: Label, regs: map<ValueId, P>, w: W): Config<P, W> {
    match FindBlock(func.blocks, name)
    case Some(b) => At(b, 0, regs, w)
    case None => Stuck
  }

  function ExecInst<P, W>(func: Function, sem: Sem<P, W>, c: Config<P, W>, v: ValueId): Config<P, W>
    requires c.At? && v < |func.values|
  {
    var inst := func.values[v];
    match inst
    case Alloca => c.(j := c.j + 1)
    case Null => c.(j := c.j + 1, regs := c.regs[v := sem.nul])
    case Await(future) =>
      (match EvalOp(func, sem, c.regs, future)
       case Some(p) => var (r, w) := sem.await(p, c.w); At(c.b, c.j + 1, c.regs[v := r], w)
       case None => Stuck)
    case _ =>
      match EvalAll(func, sem, c.regs, Args(inst))
      case Some(ps) => var (r, w) := sem.run(OpcodeOf(inst), ps, c.w); At(c.b, c.j + 1, c.regs[v := r], w)
      case None => Stuck
  }

  function ExecTerm<P, W>(func: Function, sem: Sem<P, W>, c: Config<P, W>, term: Option<Terminator>): Config<P, W>
    requires c.At?
  {
    match term
    case Some(Br(target)) => Goto(func, target, c.regs, c.w)
    case Some(CondBr(condition, trueTarget, falseTarget)) =>
      (match EvalOp(func, sem, c.regs, condition)
       case Some(p) => Goto(func, if sem.truth(p) then trueTarget else falseTarget, c.regs, c.w)
       case None => Stuck)
    case Some(Ret(None)) => Done(None, c.w)
    case Some(Ret(Some(op))) =>
      (match EvalOp(func, sem, c.regs, op)
       case Some(p) => Done(Some(p), c.w)
       case None => Stuck)
    case _ => Stuck
  }

  function Step<P, W>(func: Function, sem: Sem<P, W>, c: Config<P, W>): Config<P, W> {
    if !c.At? then c
    else if c.b >= |func.blocks| then Stuck
    else
      var block := func.blocks[c.b];
      if c.j < |block.insts| then
        if block.insts[c.j] < |func.values| then ExecInst(func, sem, c, block.insts[c.j]) else Stuck
      else ExecTerm(func, sem, c, block.terminator)
  }

  function Steps<P, W>(func: Function, sem: Sem<P, W>, c: Config<P, W>, n: nat): Config<P, W> {
    if n == 0 then c else Step(func, sem, Steps(func, sem, c, n - 1))
  }

  // ----- the state machine it is lowered to ----------------------------------------------

  /** Values of a resumed function: program values, and addresses and contents of the
      environment's first three fields and of the poll results it builds. */
  datatype RVal<P> =
    | Prog(p: P)
    | EnvPtr
    | HeaderPtr(i: nat)
    | ScratchPtr(slot: ValueId)
    | ScratchField(slot: ValueId, i: nat)
    | Int(n: int)
    | Flag(flag: bool)
    | Poll(status: Option<int>, value: Option<P>)

  datatype PollCell<P> = PollCell(status: Option<int>, value: Option<P>)

  /** State number, poll status and awaited future. */
  datatype Header<P> = Header(state: int, status: int, child: P)

  datatype Frame<P> = Frame(regs: map<ValueId, RVal<P>>, scratch: map<ValueId, PollCell<P>>, header: Header<P>)

  datatype Task<P, W> =
    | Suspended(header: Header<P>, w: W)
    | Running(name: Label, pos: nat, frame: Frame<P>, w: W)
    | Ready(value: Option<P>, header: Header<P>, w: W)
    | Crashed

  function Reg<P>(f: Frame<P>, v: ValueId): Option<RVal<P>> {
    if v in f.regs then Some(f.regs[v]) else None
  }

  function Set<P>(f: Frame<P>, v: ValueId, r: RVal<P>): Frame<P> {
    f.(regs := f.regs[v := r])
  }

  function ValueOf<P, W>(sem: Sem<P, W>, f: Frame<P>, op: Operand): Option<RVal<P>> {
    if op.Value? then Reg(f, op.id) else Some(Prog(sem.lit(op)))
  }

  function ProgArgs<P>(f: Frame<P>, vs: seq<ValueId>): Option<seq<P>> {
    if vs == [] then Some([])
    else
      var first, rest := Reg(f, vs[0]), ProgArgs(f, vs[1..]);
      if first.Some? && first.value.Prog? && rest.Some? then Some([first.value.p] + rest.value) else None
  }

  /** The field at position `i` of the environment is the local `layout[i]`. */
  function EnvField<P, W>(sem: Sem<P, W>, layout: map<nat, ValueId>, i: nat): Option<RVal<P>> {
    if i < 3 then Some(HeaderPtr(i)) else if i in layout then Some(Prog(sem.cell(layout[i]))) else None
  }

  function StoreHeader<P, W>(sem: Sem<P, W>, f: Frame<P>, i: nat, value: Operand): Option<Frame<P>> {
    if i == 0 && value.Number? then Some(f.(header := f.header.(state := ParseInt(value.text))))
    else if i == 1 && value.Number? then Some(f.(header := f.header.(status := ParseInt(value.text))))
    else if i == 2 then
      (match ValueOf(sem, f, value)
       case Some(Prog(p)) => Some(f.(header := f.header.(child := p)))
       case _ => None)
    else None
  }

  function StoreScratch<P, W>(sem: Sem<P, W>, f: Frame<P>, slot: ValueId, i: nat, value: Operand): Option<Frame<P>> {
    if slot !in f.scratch then None
    else if i == 0 && value.Number? then
      Some(f.(scratch := f.scratch[slot := f.scratch[slot].(status := Some(ParseInt(value.text)))]))
    else if i == 1 then
      (match ValueOf(sem, f, value)
       case Some(Prog(p)) => Some(f.(scratch := f.scratch[slot := f.scratch[slot].(value := Some(p))]))
       case _ => None)
    else None
  }

  function LoadFrom<P>(f: Frame<P>, r: RVal<P>): Option<RVal<P>> {
    match r
    case HeaderPtr(i) =>
      if i == 0 then Some(Int(f.header.state)) else if i == 1 then Some(Int(f.header.status))
        else Some(Prog(f.header.child))
    case ScratchPtr(slot) =>
      if slot in f.scratch then Some(Poll(f.scratch[slot].status, f.scratch[slot].value)) else None
    case _ => None
  }

  /** An instruction on program values. */
  function ExecProg<P, W>(sem: Sem<P, W>, f: Frame<P>, w: W, id: ValueId, inst: Instruction): Option<(Frame<P>, W)> {
    match ProgArgs(f, Args(inst))
    case Some(ps) => var (r, w') := sem.run(OpcodeOf(inst), ps, w); Some((Set(f, id, Prog(r)), w'))
    case None => None
  }

  function Put<P, W>(f: Frame<P>, w: W, id: ValueId, r: Option<RVal<P>>): Option<(Frame<P>, W)> {
    match r
    case Some(value) => Some((Set(f, id, value), w))
    case None => None
  }

  /** Value 0 is the function's parameter, the environment. */
  function Exec<P, W>(
      sem: Sem<P, W>, layout: map<nat, ValueId>, f: Frame<P>, w: W, id: ValueId, inst: Instruction): Option<(Frame<P>,
      W)>
  {
    var base: Option<RVal<P>> := if Args(inst) == [] then None else Reg(f, Args(inst)[0]);
    match inst
    case Alloca =>
      if id == 0 then Some((f, w))
      else Some((Set(f, id, ScratchPtr(id)).(scratch := f.scratch[id := PollCell(None, None)]), w))
    case Null => Some((Set(f, id, Prog(sem.nul)), w))
    case Await(future) =>
      (match ValueOf(sem, f, future)
       case Some(Prog(p)) => var (r, w') := sem.await(p, w); Some((Set(f, id, Prog(r)), w'))
       case _ => None)
    case FieldPtr(_, i) =>
      (match base
       case Some(EnvPtr) => Put(f, w, id, EnvField(sem, layout, i))
       case Some(ScratchPtr(slot)) => Some((Set(f, id, ScratchField(slot, i)), w))
       case _ => ExecProg(sem, f, w, id, inst))
    case Load(_) =>
      if base.Some? && (base.value.HeaderPtr? || base.value.ScratchPtr?)
      then Put(f, w, id, LoadFrom(f, base.value))
      else ExecProg(sem, f, w, id, inst)
    case Store(ptr, value) =>
      if ptr.Value? && base.Some? && base.value.HeaderPtr? then
        (match StoreHeader(sem, f, base.value.i, value)
         case Some(f') => Some((f', w))
         case None => None)
      else if ptr.Value? && base.Some? && base.value.ScratchField? then
        (match StoreScratch(sem, f, base.value.slot, base.value.i, value)
         case Some(f') => Some((f', w))
         case None => None)
      else ExecProg(sem, f, w, id, inst)
    case Binary(bin, left, right) =>
      if bin == Eq && base.Some? && base.value.Int? && right.Number?
      then Some((Set(f, id, Flag(base.value.n == ParseInt(right.text))), w))
      else ExecProg(sem, f, w, id, inst)
    case _ => ExecProg(sem, f, w, id, inst)
  }

  function ExecReturn<P, W>(sem: Sem<P, W>, f: Frame<P>, w: W, op: Operand): Task<P, W> {
    match ValueOf(sem, f, op)
    case Some(Poll(Some(status), value)) =>
      if status == 0 then Suspended(f.header, w) else if status == 1 then Ready(value, f.header, w) else Crashed
    case _ => Crashed
  }

  function ExecJump<P, W>(sem: Sem<P, W>, f: Frame<P>, w: W, term: Option<Terminator>): Task<P, W> {
    match term
    case Some(Br(target)) => Running(target, 0, f, w)
    case Some(CondBr(condition, trueTarget, falseTarget)) =>
      (match ValueOf(sem, f, condition)
       case Some(Flag(flag)) => Running(if flag then trueTarget else falseTarget, 0, f, w)
       case Some(Prog(p)) => Running(if sem.truth(p) then trueTarget else falseTarget, 0, f, w)
       case _ => Crashed)
    case Some(Ret(Some(op))) => ExecReturn(sem, f, w, op)
    case _ => Crashed
  }

  /** One step of the polled task; polling a suspended task enters the resume function. */
  function Advance<P, W>(res: Function, sem: Sem<P, W>, layout: map<nat, ValueId>, t: Task<P, W>): Task<P, W> {
    match t
    case Suspended(header, w) =>
      if res.blocks == [] then Crashed
      else Running(res.blocks[0].name, 0, Frame(map[0 := EnvPtr], map[], header), w)
    case Running(name, pos, f, w) =>
      (match FindBlock(res.blocks, name)
       case None => Crashed
       case Some(i) =>
         if i >= |res.blocks| then Crashed
         else if pos < |res.blocks[i].insts| then
           var id := res.blocks[i].insts[pos];
           if id >= |res.values| then Crashed
           else
             (match Exec(sem, layout, f, w, id, res.values[id])
              case Some((f', w')) => Running(name, pos + 1, f', w')
              case None => Crashed)
         else ExecJump(sem, f, w, res.blocks[i].terminator))
    case _ => t
  }

  function Advances<P, W>(res: Function, sem: Sem<P, W>, layout: map<nat, ValueId>, t: Task<P, W>, n: nat): Task<P, W>
    decreases n
  {
    if n == 0 then t else Advances(res, sem, layout, Advance(res, sem, layout, t), n - 1)
  }

  ghost predicate Reaches<P, W>(
      res: Function, sem: Sem<P, W>, layout: map<nat, ValueId>, t: Task<P, W>, u: Task<P, W>) {
    exists n: nat :: Advances(res, sem, layout, t, n) == u
  }

  lemma {:induction false} AdvancesAdd<P, W>(
      res: Function, sem: Sem<P, W>, layout: map<nat, ValueId>, t: Task<P, W>, n: nat, m: nat)
    ensures Advances(res, sem, layout, t, n + m) == Advances(res, sem, layout, Advances(res, sem, layout, t, n), m)
    decreases n
  {
    hide Advance;
    if n > 0 {
      AdvancesAdd(res, sem, layout, Advance(res, sem, layout, t), n - 1, m);
    }
  }

  lemma ReachesTrans<P, W>(
      res: Function, sem: Sem<P, W>, layout: map<nat, ValueId>, t: Task<P, W>, u: Task<P, W>, v: Task<P, W>)
    requires Reaches(res, sem, layout, t, u) && Reaches(res, sem, layout, u, v)
    ensures Reaches(res, sem, layout, t, v)
  {
    hide Advance;
    var n: nat :| Advances(res, sem, layout, t, n) == u;
    var m: nat :| Advances(res, sem, layout, u, m) == v;
    AdvancesAdd(res, sem, layout, t, n, m);
  }

  lemma ReachesSelf<P, W>(res: Function, sem: Sem<P, W>, layout: map<nat, ValueId>, t: Task<P, W>)
    ensures Reaches(res, sem, layout, t, t)
  {
    assert Advances(res, sem, layout, t, 0) == t;
  }

  lemma ReachesStep<P, W>(res: Function, sem: Sem<P, W>, layout: map<nat, ValueId>, t: Task<P, W>, u: Task<P, W>)
    requires Advance(res, sem, layout, t) == u
    ensures Reaches(res, sem, layout, t, u)
  {
    hide Advance;
    assert Advances(res, sem, layout, u, 0) == u;
    assert Advances(res, sem, layout, t, 1) == u;
  }
}
