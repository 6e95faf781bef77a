/** Liveness of values: the backward analysis, and what it computes in terms of walks. */
module Liveness {
  import opened Wrappers
  import opened Mvir
  import opened Shapes
  import Sets
  import opened Dominators
  import opened ForwardDataflow
  import opened BackwardDataflow

  // ----- uses ----------------------------------------------------------------------------

  function ValueIn(op: Operand): set<ValueId> {
    if op.Value? then {op.id} else {}
  }

  function ValuesIn(ops: seq<Operand>): set<ValueId> {
    set i | 0 <= i < |ops| && ops[i].Value? :: ops[i].id
  }

  /** The values the analysis takes an instruction to use. */
  function Uses(inst: Instruction): set<ValueId> {
    match inst
    case Load(ptr) => ValueIn(ptr)
    case MakeClosure(_, envPtr, captures) => ValueIn(envPtr) + set i | 0 <= i < |captures| :: captures[i].source
    case MakeTraitObject(dataPtr, _) => ValueIn(dataPtr)
    case MakeSlice(dataPtr, len) => ValueIn(dataPtr) + ValueIn(len)
    case DropVirt(obj) => ValueIn(obj)
    case CallVirt(obj, _, args) => ValueIn(obj) + ValuesIn(args)
    case Store(ptr, value) => ValueIn(ptr) + ValueIn(value)
    case Borrow(_, base) => ValueIn(base)
    case CallDirect(_, args) => ValuesIn(args)
    case CallIndirect(target, args) => ValueIn(target) + ValuesIn(args)
    case CallClosure(closure, args) => ValueIn(closure) + ValuesIn(args)
    case Binary(bin, left, right) => if bin in TRACKED_OPS then ValueIn(left) + ValueIn(right) else {}
    case Drop(value, _) => ValueIn(value)
    case BoundsCheck(index, len) => ValueIn(index) + ValueIn(len)
    case PtrOffset(ptr, offset) => ValueIn(ptr) + ValueIn(offset)
    case Await(future) => ValueIn(future)
    case Assign(op) => ValueIn(op)
    case Cast(value) => ValueIn(value)
    case FieldPtr(base, _) => ValueIn(base)
    case Extract(value, _, _) => ValueIn(value)
    case Tag(value) => ValueIn(value)
    case _ => {}
  }

  const TRACKED_OPS: set<BinOp> :=
    {Add, Sub, Mul, Div, Rem, Eq, LessThan, LessOrEq, GreaterThan, GreaterOrEq}

  function TermUses(term: Terminator): set<ValueId> {
    match term
    case Ret(Some(value)) => ValueIn(value)
    case CondBr(condition, _, _) => ValueIn(condition)
    case _ => {}
  }

  /** The instruction kinds whose operands the analysis passes over. */
  predicate Overlooked(inst: Instruction) {
    || (inst.Binary? && inst.bin in {NotEq, BitAnd, BitOr, BitXor, Shl, Shr})
    || inst.CallIntrinsic? || inst.Variant? || inst.HeapFree? || inst.MarkInit?
  }

  lemma InValues(ops: seq<Operand>, v: ValueId)
    ensures v in ValuesIn(ops) <==> Value(v) in ops
  {
    if Value(v) in ops {
      var i :| 0 <= i < |ops| && ops[i] == Value(v);
    }
  }

  lemma {:induction false} InCaptured(captures: seq<Capture>, v: ValueId)
    ensures (exists i :: 0 <= i < |captures| && captures[i].source == v) <==> Value(v) in Captured(captures)
  {
    if captures != [] {
      InCaptured(captures[1..], v);
      if i :| 0 <= i < |captures| && captures[i].source == v {
        assert i > 0 ==> captures[1..][i - 1].source == v;
      }
      if i :| 0 <= i < |captures[1..]| && captures[1..][i].source == v {
        assert captures[i + 1].source == v;
      }
    }
  }

  /** A value is used by an instruction exactly when it is among its operands and the instruction is
      not of an overlooked kind. */
  lemma UsesAreOperandsUnlessOverlooked(inst: Instruction, v: ValueId)
    ensures v in Uses(inst) <==> Value(v) in Operands(inst) && !Overlooked(inst)
  {
    if inst.MakeClosure? || inst.CallDirect? || inst.CallIndirect? || inst.CallClosure? || inst.CallVirt? {
      UsesOfList(inst, v);
    } else if inst.Binary? {
      UsesOfBinary(inst, v);
    } else {
      UsesOfOthers(inst, v);
    }
  }

  lemma UsesOfList(inst: Instruction, v: ValueId)
    requires inst.MakeClosure? || inst.CallDirect? || inst.CallIndirect? || inst.CallClosure? || inst.CallVirt?
    ensures v in Uses(inst) <==> Value(v) in Operands(inst)
  {
    hide ValuesIn, Captured;
    match inst
    case MakeClosure(_, _, captures) => InCaptured(captures, v);
    case CallDirect(_, args) => InValues(args, v);
    case CallIndirect(_, args) => InValues(args, v);
    case CallClosure(_, args) => InValues(args, v);
    case CallVirt(_, _, args) => InValues(args, v);
  }

  lemma UsesOfBinary(inst: Instruction, v: ValueId)
    requires inst.Binary?
    ensures v in Uses(inst) <==> Value(v) in Operands(inst) && !Overlooked(inst)
  {
    match inst.bin { case Add => case _ => }
  }

  lemma UsesOfOthers(inst: Instruction, v: ValueId)
    requires !inst.MakeClosure? && !inst.CallDirect? && !inst.CallIndirect? && !inst.CallClosure? && !inst.CallVirt?
    requires !inst.Binary?
    ensures v in Uses(inst) <==> Value(v) in Operands(inst) && !Overlooked(inst)
  {
    hide ValuesIn, Captured;
  }

  /** A terminator uses the values among its operands. */
  lemma TermUsesAreOperands(term: Terminator, v: ValueId)
    ensures v in TermUses(term) <==> Value(v) in TermOperands(term)
  {}

  // ----- the analysis --------------------------------------------------------------------

  type LiveSet = set<ValueId>

  function InstUses(func: Function, id: ValueId): set<ValueId> {
    if id < |func.values| then Uses(func.values[id]) else {}
  }

  function LivenessAnalysis(func: Function): Analysis<LiveSet> {
    Analysis(
      {},
      {},
      (id: ValueId, live: LiveSet) => (live - {id}) + InstUses(func, id),
      (term: Terminator, live: LiveSet) => live + TermUses(term),
      (from: Label, to: Label, live: LiveSet) => live,
      (d: LiveSet, s: LiveSet, call: nat) => d + s)
  }

  // ----- liveness in terms of walks ------------------------------------------------------

  /** Position `k` of the block has `v` among its operands, and is of no overlooked kind; position
      `|insts|` is the terminator. */
  predicate UseAt(func: Function, block: BasicBlock, k: nat, v: ValueId)
    requires k <= |block.insts|
  {
    if k < |block.insts| then
      var id := block.insts[k];
      id < |func.values| && Value(v) in Operands(func.values[id]) && !Overlooked(func.values[id])
    else block.terminator.Some? && Value(v) in TermOperands(block.terminator.value)
  }

  lemma UseAtIs(func: Function, block: BasicBlock, k: nat, v: ValueId)
    requires k <= |block.insts|
    ensures UseAt(func, block, k, v) <==>
      if k < |block.insts| then v in InstUses(func, block.insts[k])
      else block.terminator.Some? && v in TermUses(block.terminator.value)
  {
    hide Uses, TermUses, Operands, TermOperands, Overlooked;
    if k < |block.insts| {
      var id := block.insts[k];
      if id < |func.values| { UsesAreOperandsUnlessOverlooked(func.values[id], v); }
    } else if block.terminator.Some? {
      TermUsesAreOperands(block.terminator.value, v);
    }
  }

  /** Some position from `j` on uses `v`, and no position from `j` up to there defines it. */
  ghost predicate UsedFrom(func: Function, block: BasicBlock, j: nat, v: ValueId)
    requires j <= |block.insts|
  {
    exists k :: j <= k <= |block.insts| && UseAt(func, block, k, v) && Passes(block, j, k, v)
  }

  /** Positions `j` to `k` do not define `v`. */
  ghost predicate Passes(block: BasicBlock, j: nat, k: nat, v: ValueId)
    requires k <= |block.insts|
  {
    forall i :: j <= i < k ==> block.insts[i] != v
  }

  /** Along the walk, starting at position `j` of its first block, control reaches a use of `v`
      in the last block with no definition of `v` on the way. */
  ghost predicate WalkUses(func: Function, path: seq<Label>, j: nat, v: ValueId)
    requires IsPath(func, path) && WellFormed(func)
    decreases |path|
  {
    var block := BlockNamed(func, path[0]);
    && j <= |block.insts|
    && if |path| == 1 then UsedFrom(func, block, j, v)
       else Passes(block, j, |block.insts|, v) && WalkUses(func, Rest(func, path), 0, v)
  }

  ghost function Rest(func: Function, path: seq<Label>): (r: seq<Label>)
    requires IsPath(func, path) && |path| > 1 && WellFormed(func)
    ensures IsPath(func, r) && r == path[1..]
  {
    assert Edge(func, path[0], path[1]);
    path[1..]
  }

  /** Some finite walk from position `j` of block `l` leads to a use of `v` with no earlier
      definition of `v`. */
  ghost predicate LiveAt(func: Function, l: Label, j: nat, v: ValueId)
    requires WellFormed(func)
  {
    exists path :: IsPath(func, path) && path[0] == l && WalkUses(func, path, j, v)
  }

  ghost predicate LiveOut(func: Function, l: Label, v: ValueId)
    requires WellFormed(func)
  {
    exists y :: Edge(func, l, y) && LiveAt(func, y, 0, v)
  }

  // ----- one block -----------------------------------------------------------------------

  /** What the analysis says before position `j` of a block whose end has live set `out`. */
  function LiveBefore(func: Function, block: BasicBlock, j: nat, out: LiveSet): LiveSet
    requires j <= |block.insts|
    decreases |block.insts| - j
  {
    if j == |block.insts| then (if block.terminator.Some? then out + TermUses(block.terminator.value) else out)
    else (LiveBefore(func, block, j + 1, out) - {block.insts[j]}) + InstUses(func, block.insts[j])
  }

  lemma {:induction false} TransferIsLiveBefore(func: Function, block: BasicBlock, j: nat, out: LiveSet)
    requires j <= |block.insts|
    ensures TransferInstsBack(LivenessAnalysis(func), block.insts[j..],
        match block.terminator case Some(t) => LivenessAnalysis(func).term(t, out) case None => out)
      == LiveBefore(func, block, j, out)
    decreases |block.insts| - j
  {
    if j < |block.insts| {
      TransferIsLiveBefore(func, block, j + 1, out);
      assert block.insts[j..][1..] == block.insts[j + 1..];
    }
  }

  lemma TransferBackIs(func: Function, block: BasicBlock, out: LiveSet)
    ensures TransferBack(LivenessAnalysis(func), block, out) == LiveBefore(func, block, 0, out)
  {
    TransferIsLiveBefore(func, block, 0, out);
    assert block.insts[0..] == block.insts;
  }

  lemma {:induction false} LiveBeforeMeans(func: Function, block: BasicBlock, j: nat, out: LiveSet, v: ValueId)
    requires j <= |block.insts|
    ensures v in LiveBefore(func, block, j, out) <==>
      UsedFrom(func, block, j, v) || (Passes(block, j, |block.insts|, v) && v in out)
    decreases |block.insts| - j
  {
    hide UseAt, InstUses, TermUses;
    UseAtIs(func, block, j, v);
    if j < |block.insts| {
      LiveBeforeMeans(func, block, j + 1, out, v);
      if UsedFrom(func, block, j + 1, v) && block.insts[j] != v {
        var k :| j + 1 <= k <= |block.insts| && UseAt(func, block, k, v) && Passes(block, j + 1, k, v);
        assert UseAt(func, block, k, v) && Passes(block, j, k, v);
      }
      if v in InstUses(func, block.insts[j]) {
        assert UseAt(func, block, j, v) && Passes(block, j, j, v);
      }
    } else if UseAt(func, block, j, v) {
      assert Passes(block, j, j, v);
    }
  }

  // ----- soundness: nothing is live without a walk ---------------------------------------

  lemma ExtendWalk(func: Function, block: BasicBlock, j: nat, y: Label, path: seq<Label>, v: ValueId)
    requires WellFormed(func) && block in func.blocks && j <= |block.insts|
    requires Edge(func, block.name, y) && IsPath(func, path) && path[0] == y && WalkUses(func, path, 0, v)
    requires Passes(block, j, |block.insts|, v)
    ensures LiveAt(func, block.name, j, v)
  {
    var longer := [block.name] + path;
    assert IsPath(func, longer);
    assert longer[1..] == path;
    assert BlockNamed(func, block.name) == block;
    assert WalkUses(func, longer, j, v);
  }

  lemma LiveBeforeHasWalk(func: Function, block: BasicBlock, j: nat, out: LiveSet, v: ValueId)
    requires WellFormed(func) && block in func.blocks && j <= |block.insts|
    requires forall u :: u in out ==> LiveOut(func, block.name, u)
    requires v in LiveBefore(func, block, j, out)
    ensures LiveAt(func, block.name, j, v)
  {
    LiveBeforeMeans(func, block, j, out, v);
    assert BlockNamed(func, block.name) == block;
    if UsedFrom(func, block, j, v) {
      assert IsPath(func, [block.name]);
      assert WalkUses(func, [block.name], j, v);
    } else {
      var y :| Edge(func, block.name, y) && LiveAt(func, y, 0, v);
      var path :| IsPath(func, path) && path[0] == y && WalkUses(func, path, 0, v);
      ExtendWalk(func, block, j, y, path, v);
    }
  }

  // ----- completeness: a fixpoint misses no walk -----------------------------------------

  lemma FixpointContains(func: Function, preds: EdgeMap, states: map<Label, LiveSet>, block: BasicBlock, x: Label)
    requires WellFormed(func)
    requires BackwardFixpoint(func, LivenessAnalysis(func), preds, states)
    requires block in func.blocks && Edge(func, x, block.name)
    ensures x in states && LiveBefore(func, block, 0, states[block.name]) <= states[x]
  {
    var a := LivenessAnalysis(func);
    var i :| 0 <= i < |func.blocks| && func.blocks[i] == block;
    assert BackBlockStable(a, func.blocks[i], preds[block.name], states);
    assert BackStable(a, block, x, states);
    TransferBackIs(func, block, states[block.name]);
  }

  lemma {:induction false} WalkIsFound(
      func: Function, preds: EdgeMap, states: map<Label, LiveSet>, path: seq<Label>, j: nat, v: ValueId)
    requires WellFormed(func)
    requires BackwardFixpoint(func, LivenessAnalysis(func), preds, states)
    requires IsPath(func, path) && WalkUses(func, path, j, v)
    ensures var block := BlockNamed(func, path[0]);
      block.name in states && v in LiveBefore(func, block, j, states[block.name])
    decreases |path|
  {
    var block := BlockNamed(func, path[0]);
    LiveBeforeMeans(func, block, j, states[block.name], v);
    if |path| > 1 {
      var rest := Rest(func, path);
      WalkIsFound(func, preds, states, rest, 0, v);
      assert Edge(func, path[0], path[1]);
      FixpointContains(func, preds, states, BlockNamed(func, path[1]), path[0]);
    }
  }

  /** Before every position of every block the analysis holds exactly the live values. */
  lemma LivenessIsExact(
      func: Function, preds: EdgeMap, states: map<Label, LiveSet>, block: BasicBlock, j: nat, v: ValueId)
    requires WellFormed(func)
    requires BackwardFixpoint(func, LivenessAnalysis(func), preds, states)
    requires forall l, u :: l in states && u in states[l] ==> LiveOut(func, l, u)
    requires block in func.blocks && j <= |block.insts|
    ensures v in LiveBefore(func, block, j, states[block.name]) <==> LiveAt(func, block.name, j, v)
  {
    if v in LiveBefore(func, block, j, states[block.name]) {
      LiveBeforeHasWalk(func, block, j, states[block.name], v);
    }
    if LiveAt(func, block.name, j, v) {
      var path :| IsPath(func, path) && path[0] == block.name && WalkUses(func, path, j, v);
      assert BlockNamed(func, block.name) == block;
      WalkIsFound(func, preds, states, path, j, v);
    }
  }

  // ----- running it ----------------------------------------------------------------------

  function AllUses(func: Function, n: nat): set<ValueId>
    requires n <= |func.blocks|
  {
    if n == 0 then {} else AllUses(func, n - 1) + BlockUses(func, func.blocks[n - 1])
  }

  function BlockUses(func: Function, block: BasicBlock): set<ValueId> {
    (set k, v | 0 <= k < |block.insts| && v in InstUses(func, block.insts[k]) :: v)
    + (if block.terminator.Some? then TermUses(block.terminator.value) else {})
  }

  lemma {:induction false} UsesCollected(func: Function, n: nat, i: nat)
    requires i < n <= |func.blocks|
    ensures BlockUses(func, func.blocks[i]) <= AllUses(func, n)
  {
    if i < n - 1 { UsesCollected(func, n - 1, i); }
  }

  lemma {:induction false} LiveBeforeBounded(func: Function, block: BasicBlock, j: nat, out: LiveSet, all: set<ValueId>)
    requires j <= |block.insts| && BlockUses(func, block) <= all && out <= all
    ensures LiveBefore(func, block, j, out) <= all
    decreases |block.insts| - j
  {
    if j < |block.insts| {
      LiveBeforeBounded(func, block, j + 1, out, all);
    }
  }

  ghost function LiveInv(func: Function): (Label, LiveSet) -> bool
    requires WellFormed(func)
  {
    (l: Label, live: LiveSet) =>
      live <= AllUses(func, |func.blocks|) && forall v :: v in live ==> LiveOut(func, l, v)
  }

  lemma LivenessKeeps(func: Function)
    requires WellFormed(func)
    ensures BackInvariant(func, LivenessAnalysis(func), LiveInv(func))
  {
    var a, inv := LivenessAnalysis(func), LiveInv(func);
    forall i, x, s, d, t: nat | 0 <= i < |func.blocks| && Edge(func, x, func.blocks[i].name)
        && inv(func.blocks[i].name, s) && inv(x, d)
      ensures inv(x, a.merge(d, TransferBack(a, func.blocks[i], s), t))
    {
      var block := func.blocks[i];
      TransferBackIs(func, block, s);
      UsesCollected(func, |func.blocks|, i);
      LiveBeforeBounded(func, block, 0, s, AllUses(func, |func.blocks|));
      forall v | v in LiveBefore(func, block, 0, s) ensures LiveOut(func, x, v) {
        LiveBeforeHasWalk(func, block, 0, s, v);
      }
    }
  }

  lemma LivenessAscends(func: Function)
    requires WellFormed(func)
    ensures Ascends(LivenessAnalysis(func), LiveInv(func), (s: LiveSet) => |s|, |AllUses(func, |func.blocks|)|)
  {
    var a, inv := LivenessAnalysis(func), LiveInv(func);
    forall l, s | inv(l, s) ensures |s| <= |AllUses(func, |func.blocks|)| {
      Sets.SubsetSize(s, AllUses(func, |func.blocks|));
    }
    forall l, d, s, t: nat | inv(l, d) && inv(l, a.merge(d, s, t)) && a.merge(d, s, t) != d
      ensures |d| < |a.merge(d, s, t)|
    {
      Sets.SubsetSize(d, d + s);
    }
  }

  /** Before and after every instruction, and at the entry of every block, exactly the values
      that some walk from there uses before defining them. */
  method ComputeLiveness(func: Function)
    returns (blockOut: map<Label, LiveSet>, liveBefore: map<ValueId, LiveSet>, liveAfter: map<ValueId, LiveSet>,
      liveAtEntry: map<Label, LiveSet>)
    requires WellFormed(func) && ListedOnce(func)
    ensures forall b :: 0 <= b < |func.blocks| ==> ExactForBlock(func, blockOut, liveBefore, liveAfter, liveAtEntry, b)
  {
    LivenessKeeps(func);
    LivenessAscends(func);
    ghost var preds: EdgeMap;
    var sweeps: nat;
    blockOut, sweeps, preds :=
      RunBackward(func, LivenessAnalysis(func), LiveInv(func), (s: LiveSet) => |s|, |AllUses(func, |func.blocks|)|);
    liveBefore, liveAfter, liveAtEntry := BuildTables(func, blockOut);
    forall b | 0 <= b < |func.blocks|
      ensures ExactForBlock(func, blockOut, liveBefore, liveAfter, liveAtEntry, b)
    {
      TablesAreExact(func, preds, blockOut, liveBefore, liveAfter, liveAtEntry, b);
    }
  }

  method BuildTables(func: Function, blockOut: map<Label, LiveSet>)
    returns (liveBefore: map<ValueId, LiveSet>, liveAfter: map<ValueId, LiveSet>, liveAtEntry: map<Label, LiveSet>)
    requires WellFormed(func) && ListedOnce(func) && blockOut.Keys == Labels(func)
    ensures forall b :: 0 <= b < |func.blocks| ==> TablesFor(func, func.blocks[b], blockOut, liveBefore, liveAfter, 0)
    ensures forall b :: 0 <= b < |func.blocks| ==> EntryFor(func, func.blocks[b], blockOut, liveAtEntry)
  {
    hide LiveBefore, TablesFor;
    liveBefore, liveAfter, liveAtEntry := map[], map[], map[];
    for b := 0 to |func.blocks|
      invariant forall c :: 0 <= c < b ==> TablesFor(func, func.blocks[c], blockOut, liveBefore, liveAfter, 0)
      invariant forall c :: 0 <= c < b ==> EntryFor(func, func.blocks[c], blockOut, liveAtEntry)
    {
      ghost var before0, after0 := liveBefore, liveAfter;
      var atEntry: LiveSet;
      liveBefore, liveAfter, atEntry := TablesOfBlock(func, b, blockOut, liveBefore, liveAfter);
      liveAtEntry := liveAtEntry[func.blocks[b].name := atEntry];
      forall c | 0 <= c < b ensures TablesFor(func, func.blocks[c], blockOut, liveBefore, liveAfter, 0) {
        OtherBlockKept(func, b, c, blockOut, before0, after0, liveBefore, liveAfter);
      }
    }
  }

  /** The tables give the analysis's sets for the positions of the block from `j` on. */
  ghost predicate TablesFor(
      func: Function, block: BasicBlock, blockOut: map<Label, LiveSet>,
      liveBefore: map<ValueId, LiveSet>, liveAfter: map<ValueId, LiveSet>, j: nat)
  {
    && block.name in blockOut
    && forall k :: j <= k < |block.insts| ==>
         && block.insts[k] in liveBefore && block.insts[k] in liveAfter
         && liveBefore[block.insts[k]] == LiveBefore(func, block, k, blockOut[block.name])
         && liveAfter[block.insts[k]] == LiveBefore(func, block, k + 1, blockOut[block.name])
  }

  ghost predicate EntryFor(
      func: Function, block: BasicBlock, blockOut: map<Label, LiveSet>, liveAtEntry: map<Label, LiveSet>) {
    && block.name in blockOut && block.name in liveAtEntry
    && liveAtEntry[block.name] == LiveBefore(func, block, 0, blockOut[block.name])
  }

  ghost predicate ExactForBlock(
      func: Function, blockOut: map<Label, LiveSet>, liveBefore: map<ValueId, LiveSet>,
      liveAfter: map<ValueId, LiveSet>, liveAtEntry: map<Label, LiveSet>, b: nat)
    requires WellFormed(func) && b < |func.blocks|
  {
    var block := func.blocks[b];
    && block.name in blockOut && block.name in liveAtEntry
    && (forall v :: v in blockOut[block.name] <==> LiveOut(func, block.name, v))
    && (forall v :: v in liveAtEntry[block.name] <==> LiveAt(func, block.name, 0, v))
    && forall k :: 0 <= k < |block.insts| ==>
         && block.insts[k] in liveBefore && block.insts[k] in liveAfter
         && (forall v :: v in liveBefore[block.insts[k]] <==> LiveAt(func, block.name, k, v))
         && (forall v :: v in liveAfter[block.insts[k]] <==> LiveAt(func, block.name, k + 1, v))
  }

  method TablesOfBlock(
      func: Function, b: nat, blockOut: map<Label, LiveSet>, before0: map<ValueId, LiveSet>, after0: map<ValueId,
      LiveSet>)
    returns (liveBefore: map<ValueId, LiveSet>, liveAfter: map<ValueId, LiveSet>, current: LiveSet)
    requires WellFormed(func) && ListedOnce(func) && b < |func.blocks| && func.blocks[b].name in blockOut
    ensures TablesFor(func, func.blocks[b], blockOut, liveBefore, liveAfter, 0)
    ensures current == LiveBefore(func, func.blocks[b], 0, blockOut[func.blocks[b].name])
    ensures forall v :: v !in func.blocks[b].insts ==>
      (v in before0 <==> v in liveBefore) && (v in after0 <==> v in liveAfter)
    ensures forall v :: v !in func.blocks[b].insts && v in before0 ==> before0[v] == liveBefore[v]
    ensures forall v :: v !in func.blocks[b].insts && v in after0 ==> after0[v] == liveAfter[v]
  {
    hide Labels, InstUses, TermUses;
    var block := func.blocks[b];
    liveBefore, liveAfter := before0, after0;
    current := blockOut[block.name];
    if block.terminator.Some? {
      current := current + TermUses(block.terminator.value);
    }
    var k := |block.insts|;
    while k > 0
      invariant 0 <= k <= |block.insts|
      invariant current == LiveBefore(func, block, k, blockOut[block.name])
      invariant TablesFor(func, block, blockOut, liveBefore, liveAfter, k)
      invariant forall v :: v !in block.insts ==>
        (v in before0 <==> v in liveBefore) && (v in after0 <==> v in liveAfter)
      invariant forall v :: v !in block.insts && v in before0 ==> before0[v] == liveBefore[v]
      invariant forall v :: v !in block.insts && v in after0 ==> after0[v] == liveAfter[v]
    {
      k := k - 1;
      var v := block.insts[k];
      assert forall i :: k < i < |block.insts| ==> block.insts[i] != v;
      liveAfter := liveAfter[v := current];
      current := (current - {v}) + InstUses(func, v);
      liveBefore := liveBefore[v := current];
    }
  }

  lemma OtherBlockKept(
      func: Function, b: nat, c: nat, blockOut: map<Label, LiveSet>, before0: map<ValueId, LiveSet>,
      after0: map<ValueId, LiveSet>, liveBefore: map<ValueId, LiveSet>, liveAfter: map<ValueId, LiveSet>)
    requires ListedOnce(func) && c < b < |func.blocks|
    requires TablesFor(func, func.blocks[c], blockOut, before0, after0, 0)
    requires forall v :: v !in func.blocks[b].insts ==>
      (v in before0 <==> v in liveBefore) && (v in after0 <==> v in liveAfter)
    requires forall v :: v !in func.blocks[b].insts && v in before0 ==> before0[v] == liveBefore[v]
    requires forall v :: v !in func.blocks[b].insts && v in after0 ==> after0[v] == liveAfter[v]
    ensures TablesFor(func, func.blocks[c], blockOut, liveBefore, liveAfter, 0)
  {
    forall k | 0 <= k < |func.blocks[c].insts| ensures func.blocks[c].insts[k] !in func.blocks[b].insts {}
  }

  lemma TablesAreExact(
      func: Function, preds: EdgeMap, blockOut: map<Label, LiveSet>, liveBefore: map<ValueId, LiveSet>,
      liveAfter: map<ValueId, LiveSet>, liveAtEntry: map<Label, LiveSet>, b: nat)
    requires WellFormed(func) && b < |func.blocks|
    requires BackwardFixpoint(func, LivenessAnalysis(func), preds, blockOut)
    requires forall l :: l in blockOut ==> LiveInv(func)(l, blockOut[l])
    requires TablesFor(func, func.blocks[b], blockOut, liveBefore, liveAfter, 0)
    requires EntryFor(func, func.blocks[b], blockOut, liveAtEntry)
    ensures ExactForBlock(func, blockOut, liveBefore, liveAfter, liveAtEntry, b)
  {
    var block := func.blocks[b];
    forall v, k: nat | k <= |block.insts|
      ensures v in LiveBefore(func, block, k, blockOut[block.name]) <==> LiveAt(func, block.name, k, v)
    {
      LivenessIsExact(func, preds, blockOut, block, k, v);
    }
    forall v | LiveOut(func, block.name, v) ensures v in blockOut[block.name] {
      LiveOutIsFound(func, preds, blockOut, block.name, v);
    }
  }

  lemma LiveOutIsFound(func: Function, preds: EdgeMap, states: map<Label, LiveSet>, l: Label, v: ValueId)
    requires WellFormed(func)
    requires BackwardFixpoint(func, LivenessAnalysis(func), preds, states)
    requires LiveOut(func, l, v)
    ensures l in states && v in states[l]
  {
    var y :| Edge(func, l, y) && LiveAt(func, y, 0, v);
    var path :| IsPath(func, path) && path[0] == y && WalkUses(func, path, 0, v);
    WalkIsFound(func, preds, states, path, 0, v);
    FixpointContains(func, preds, states, BlockNamed(func, y), l);
  }
}
