/** Instructions taken apart: their operands, in order, and everything else about them. */
module Shapes {
  import opened Wrappers
  import opened Mvir

  /** An instruction without its operands. */
  datatype Shape =
    | AllocaShape
    | HeapAllocShape
    | AssignShape
    | StoreShape
    | LoadShape
    | BinaryShape(bin: BinOp)
    | CallDirectShape(callee: string)
    | CallIndirectShape
    | CallClosureShape
    | CallIntrinsicShape(kind: string)
    | MakeClosureShape(func: string, modes: seq<CaptureMode>)
    | CallVirtShape(methodIdx: nat)
    | MakeTraitObjectShape(vtable: string)
    | MakeSliceShape
    | DropVirtShape
    | BoundsCheckShape
    | BorrowShape(isRw: bool)
    | VariantShape(variantIdx: nat)
    | TagShape
    | ExtractShape(variantIdx: nat, fieldIdx: nat)
    | FieldPtrShape(fieldIdx: nat)
    | HeapFreeShape
    | MarkInitShape
    | DropShape(dropFn: Option<string>)
    | PtrOffsetShape
    | CastShape
    | SizeOfShape
    | AlignOfShape
    | NullShape
    | NopShape
    | AwaitShape

  function ShapeOf(inst: Instruction): Shape {
    match inst
    case Alloca => AllocaShape
    case HeapAlloc => HeapAllocShape
    case Assign(_) => AssignShape
    case Store(_, _) => StoreShape
    case Load(_) => LoadShape
    case Binary(bin, _, _) => BinaryShape(bin)
    case CallDirect(callee, _) => CallDirectShape(callee)
    case CallIndirect(_, _) => CallIndirectShape
    case CallClosure(_, _) => CallClosureShape
    case CallIntrinsic(kind, _) => CallIntrinsicShape(kind)
    case MakeClosure(func, _, captures) => MakeClosureShape(func, Modes(captures))
    case CallVirt(_, methodIdx, _) => CallVirtShape(methodIdx)
    case MakeTraitObject(_, vtable) => MakeTraitObjectShape(vtable)
    case MakeSlice(_, _) => MakeSliceShape
    case DropVirt(_) => DropVirtShape
    case BoundsCheck(_, _) => BoundsCheckShape
    case Borrow(isRw, _) => BorrowShape(isRw)
    case Variant(variantIdx, _) => VariantShape(variantIdx)
    case Tag(_) => TagShape
    case Extract(_, variantIdx, fieldIdx) => ExtractShape(variantIdx, fieldIdx)
    case FieldPtr(_, fieldIdx) => FieldPtrShape(fieldIdx)
    case HeapFree(_) => HeapFreeShape
    case MarkInit(_) => MarkInitShape
    case Drop(_, dropFn) => DropShape(dropFn)
    case PtrOffset(_, _) => PtrOffsetShape
    case Cast(_) => CastShape
    case SizeOf => SizeOfShape
    case AlignOf => AlignOfShape
    case Null => NullShape
    case Nop => NopShape
    case Await(_) => AwaitShape
  }

  function Modes(captures: seq<Capture>): (r: seq<CaptureMode>)
    ensures |r| == |captures|
  {
    if captures == [] then [] else [captures[0].mode] + Modes(captures[1..])
  }

  function Captured(captures: seq<Capture>): (r: seq<Operand>)
    ensures |r| == |captures|
  {
    if captures == [] then [] else [Value(captures[0].source)] + Captured(captures[1..])
  }

  function Operands(inst: Instruction): seq<Operand> {
    match inst
    case Alloca => []
    case HeapAlloc => []
    case Assign(op) => [op]
    case Store(ptr, value) => [ptr, value]
    case Load(ptr) => [ptr]
    case Binary(_, left, right) => [left, right]
    case CallDirect(_, args) => args
    case CallIndirect(target, args) => [target] + args
    case CallClosure(closure, args) => [closure] + args
    case CallIntrinsic(_, args) => args
    case MakeClosure(_, envPtr, captures) => [envPtr] + Captured(captures)
    case CallVirt(obj, _, args) => [obj] + args
    case MakeTraitObject(dataPtr, _) => [dataPtr]
    case MakeSlice(dataPtr, len) => [dataPtr, len]
    case DropVirt(obj) => [obj]
    case BoundsCheck(index, len) => [index, len]
    case Borrow(_, base) => [base]
    case Variant(_, args) => args
    case Tag(value) => [value]
    case Extract(value, _, _) => [value]
    case FieldPtr(base, _) => [base]
    case HeapFree(value) => [value]
    case MarkInit(value) => [value]
    case Drop(value, _) => [value]
    case PtrOffset(ptr, offset) => [ptr, offset]
    case Cast(value) => [value]
    case SizeOf => []
    case AlignOf => []
    case Null => []
    case Nop => []
    case Await(future) => [future]
  }

  lemma {:induction false} CapturesDetermined(a: seq<Capture>, b: seq<Capture>)
    requires Modes(a) == Modes(b) && Captured(a) == Captured(b)
    ensures a == b
  {
    assert |a| == |Modes(a)| == |b|;
    if a != [] {
      assert Modes(a)[0] == a[0].mode && Modes(b)[0] == b[0].mode;
      assert Captured(a)[0] == Value(a[0].source) && Captured(b)[0] == Value(b[0].source);
      assert Modes(a)[1..] == Modes(a[1..]) && Modes(b)[1..] == Modes(b[1..]);
      assert Captured(a)[1..] == Captured(a[1..]) && Captured(b)[1..] == Captured(b[1..]);
      CapturesDetermined(a[1..], b[1..]);
      assert a[0] == b[0] && a == [a[0]] + a[1..] && b == [b[0]] + b[1..];
    }
  }

  lemma HeadAndRest(a: Operand, b: Operand, xs: seq<Operand>, ys: seq<Operand>)
    ensures [a] + xs == [b] + ys ==> a == b && xs == ys
  {
    if [a] + xs == [b] + ys {
      assert ([a] + xs)[0] == ([b] + ys)[0] && ([a] + xs)[1..] == ([b] + ys)[1..];
    }
  }

  /** Nothing about an instruction is lost: shape and operands determine it. */
  lemma Determined(a: Instruction, b: Instruction)
    requires ShapeOf(a) == ShapeOf(b) && Operands(a) == Operands(b)
    ensures a == b
  {
    hide ShapeOf, Operands;
    if HasRest(a) || HasRest(b) { RestDetermined(a, b); } else { FewDetermined(a, b); }
  }

  /** A first operand, and a list of others. */
  predicate HasRest(inst: Instruction) {
    inst.CallIndirect? || inst.CallClosure? || inst.CallVirt? || inst.MakeClosure?
  }

  lemma RestDetermined(a: Instruction, b: Instruction)
    requires ShapeOf(a) == ShapeOf(b) && Operands(a) == Operands(b) && (HasRest(a) || HasRest(b))
    ensures a == b
  {
    hide Modes, Captured;
    match (a, b)
    case (CallIndirect(x, xs), CallIndirect(y, ys)) => HeadAndRest(x, y, xs, ys);
    case (CallClosure(x, xs), CallClosure(y, ys)) => HeadAndRest(x, y, xs, ys);
    case (CallVirt(x, _, xs), CallVirt(y, _, ys)) => HeadAndRest(x, y, xs, ys);
    case (MakeClosure(_, x, xs), MakeClosure(_, y, ys)) =>
      HeadAndRest(x, y, Captured(xs), Captured(ys));
      CapturesDetermined(xs, ys);
  }

  predicate HasTwo(inst: Instruction) {
    inst.Store? || inst.Binary? || inst.MakeSlice? || inst.BoundsCheck? || inst.PtrOffset?
  }

  lemma FewDetermined(a: Instruction, b: Instruction)
    requires ShapeOf(a) == ShapeOf(b) && Operands(a) == Operands(b) && !HasRest(a) && !HasRest(b)
    ensures a == b
  {
    hide ShapeOf, Operands, HasRest;
    if HasTwo(a) || HasTwo(b) { TwoDetermined(a, b); } else { OneDetermined(a, b); }
  }

  lemma TwoDetermined(a: Instruction, b: Instruction)
    requires ShapeOf(a) == ShapeOf(b) && Operands(a) == Operands(b) && (HasTwo(a) || HasTwo(b))
    ensures a == b
  {
    hide Modes, Captured;
    OneOrTwo(Operands(a), Operands(b));
  }

  lemma OneDetermined(a: Instruction, b: Instruction)
    requires ShapeOf(a) == ShapeOf(b) && Operands(a) == Operands(b)
    requires !HasRest(a) && !HasRest(b) && !HasTwo(a) && !HasTwo(b)
    ensures a == b
  {
    hide Modes, Captured;
    OneOrTwo(Operands(a), Operands(b));
  }

  lemma OneOrTwo(xs: seq<Operand>, ys: seq<Operand>)
    requires xs == ys
    ensures |xs| > 0 ==> xs[0] == ys[0]
    ensures |xs| > 1 ==> xs[1] == ys[1]
  {}

  // ----- terminators ---------------------------------------------------------------------

  datatype TermShape =
    | RetShape
    | BrShape(target: Label)
    | CondBrShape(trueTarget: Label, falseTarget: Label)
    | UnreachableShape
    | MissingReturnShape

  function TermShapeOf(term: Terminator): TermShape {
    match term
    case Ret(_) => RetShape
    case Br(target) => BrShape(target)
    case CondBr(_, trueTarget, falseTarget) => CondBrShape(trueTarget, falseTarget)
    case Unreachable => UnreachableShape
    case MissingReturn => MissingReturnShape
  }

  function TermOperands(term: Terminator): seq<Operand> {
    match term
    case Ret(Some(value)) => [value]
    case CondBr(condition, _, _) => [condition]
    case _ => []
  }

  lemma TermDetermined(a: Terminator, b: Terminator)
    requires TermShapeOf(a) == TermShapeOf(b) && TermOperands(a) == TermOperands(b)
    ensures a == b
  {
    assert |TermOperands(a)| == |TermOperands(b)|;
    OneOrTwo(TermOperands(a), TermOperands(b));
  }
}
