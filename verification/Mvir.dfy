/** Optional values, as the compiler's own `Option`. */
module Wrappers {
  datatype Option<+T> = None | Some(value: T)
}

/** The part of the mid-level IR that the modelled passes inspect. */
module Mvir {
  import opened Wrappers

  type ValueId = nat
  type Label = string
  type TypeId = nat

  datatype Operand =
    | Value(id: ValueId)
    | Global(name: string)
    | BlockRef(block: nat)
    | Number(text: string)
    | Boolean(flag: bool)
    | StringRef(text: string)
    | Char(text: string)

  datatype CaptureMode = MoveCapture | SharedBorrow | MutableBorrow

  datatype Capture = Capture(source: ValueId, mode: CaptureMode)

  datatype BinOp =
    | Add | Sub | Mul | Div | Rem
    | Eq | NotEq | LessThan | LessOrEq | GreaterThan | GreaterOrEq
    | BitAnd | BitOr | BitXor | Shl | Shr

  datatype Instruction =
    | Alloca
    | HeapAlloc
    | Assign(op: Operand)
    | Store(ptr: Operand, value: Operand)
    | Load(ptr: Operand)
    | Binary(bin: BinOp, left: Operand, right: Operand)
    | CallDirect(callee: string, args: seq<Operand>)
    | CallIndirect(target: Operand, args: seq<Operand>)
    | CallClosure(closure: Operand, args: seq<Operand>)
    | CallIntrinsic(kind: string, args: seq<Operand>)
    | MakeClosure(func: string, envPtr: Operand, captures: seq<Capture>)
    | CallVirt(obj: Operand, methodIdx: nat, args: seq<Operand>)
    | MakeTraitObject(dataPtr: Operand, vtable: string)
    | MakeSlice(dataPtr: Operand, len: Operand)
    | DropVirt(obj: Operand)
    | BoundsCheck(index: Operand, len: Operand)
    | Borrow(isRw: bool, base: Operand)
    | Variant(variantIdx: nat, args: seq<Operand>)
    | Tag(value: Operand)
    | Extract(value: Operand, variantIdx: nat, fieldIdx: nat)
    | FieldPtr(base: Operand, fieldIdx: nat)
    | HeapFree(value: Operand)
    | MarkInit(value: Operand)
    | Drop(value: Operand, dropFn: Option<string>)
    | PtrOffset(ptr: Operand, offset: Operand)
    | Cast(value: Operand)
    | SizeOf
    | AlignOf
    | Null
    | Nop
    | Await(future: Operand)

  datatype Terminator =
    | Ret(value: Option<Operand>)
    | Br(target: Label)
    | CondBr(condition: Operand, trueTarget: Label, falseTarget: Label)
    | Unreachable
    | MissingReturn

  datatype BasicBlock = BasicBlock(name: Label, insts: seq<ValueId>, terminator: Option<Terminator>)

  /** `values[v]` is the instruction that defines value `v`. */
  datatype Function = Function(argCount: nat, blocks: seq<BasicBlock>, values: seq<Instruction>)

  /** The labels a block may branch to, in the order the passes visit them. */
  function Successors(block: BasicBlock): seq<Label> {
    match block.terminator
    case Some(Br(target)) => [target]
    case Some(CondBr(_, trueTarget, falseTarget)) => [trueTarget, falseTarget]
    case _ => []
  }

  /** Control goes on to the targets of the terminator and to nothing else. */
  lemma SuccessorsAre(block: BasicBlock, l: Label)
    ensures l in Successors(block) <==>
      && block.terminator.Some?
      && (var term := block.terminator.value;
          (term.Br? && l == term.target) || (term.CondBr? && (l == term.trueTarget || l == term.falseTarget)))
  {}

  function Labels(func: Function): set<Label> {
    set i | 0 <= i < |func.blocks| :: func.blocks[i].name
  }

  ghost predicate DistinctLabels(blocks: seq<BasicBlock>) {
    forall i, j :: 0 <= i < j < |blocks| ==> blocks[i].name != blocks[j].name
  }

  /** What every pass takes for granted: labels name one block each, branches land on
      blocks of the function, and a block lists values of the function. */
  ghost predicate WellFormed(func: Function) {
    && DistinctLabels(func.blocks)
    && (forall i, t :: 0 <= i < |func.blocks| && t in Successors(func.blocks[i]) ==> t in Labels(func))
    && (forall i, v :: 0 <= i < |func.blocks| && v in func.blocks[i].insts ==> v < |func.values|)
  }

  predicate IsListed(func: Function, v: ValueId) {
    exists b :: 0 <= b < |func.blocks| && v in func.blocks[b].insts
  }

  /** Each value is listed at one position of one block. */
  ghost predicate ListedOnce(func: Function) {
    forall b, j, b', j' ::
      (&& 0 <= b < |func.blocks| && 0 <= j < |func.blocks[b].insts|
       && 0 <= b' < |func.blocks| && 0 <= j' < |func.blocks[b'].insts|
       && func.blocks[b].insts[j] == func.blocks[b'].insts[j']) ==> b == b' && j == j'
  }

  /** Control may pass from block `x` to block `y`. */
  ghost predicate Edge(func: Function, x: Label, y: Label) {
    exists i :: 0 <= i < |func.blocks| && func.blocks[i].name == x && y in Successors(func.blocks[i])
  }

  /** A non-empty walk along control-flow edges. */
  ghost predicate IsPath(func: Function, path: seq<Label>) {
    && |path| > 0
    && path[0] in Labels(func)
    && forall k :: 0 <= k < |path| - 1 ==> Edge(func, path[k], path[k + 1])
  }

  ghost predicate IsPathBetween(func: Function, path: seq<Label>, from: Label, to: Label) {
    IsPath(func, path) && path[0] == from && path[|path| - 1] == to
  }

  /** Some walk leads from the first block to `l`. */
  ghost predicate Reachable(func: Function, l: Label) {
    && |func.blocks| > 0
    && exists path :: IsPathBetween(func, path, func.blocks[0].name, l)
  }

  lemma ReachableStep(func: Function, x: Label, y: Label)
    requires Reachable(func, x) && Edge(func, x, y)
    ensures Reachable(func, y)
  {
    var path :| IsPathBetween(func, path, func.blocks[0].name, x);
    assert IsPathBetween(func, path + [y], func.blocks[0].name, y);
  }
}
