/** The resume function of an async function: its blocks, split where they await, over an
    environment that holds the locals, behind a chain of blocks that dispatches on the state. */
module AsyncLowering {
  import opened Wrappers
  import opened Mvir
  import opened Decimal
  import opened AsyncMachine

  const FIRST_LOCAL_FIELD: nat := 3
  const STATE_FIELD: nat := 0
  const STATUS_FIELD: nat := 1
  const CHILD_FIELD: nat := 2
  const FUTURE_STATE_COMPLETED: int := -1

  // ----- the environment -----------------------------------------------------------------

  /** The locals among the first `n` values, in order. */
  function LocalsTo(values: seq<Instruction>, n: nat): seq<ValueId>
    requires n <= |values|
  {
    if n == 0 then [] else LocalsTo(values, n - 1) + (if values[n - 1].Alloca? then [n - 1] else [])
  }

  function Locals(func: Function): seq<ValueId> {
    LocalsTo(func.values, |func.values|)
  }

  lemma {:induction false} LocalsToAre(values: seq<Instruction>, n: nat)
    requires n <= |values|
    ensures forall v :: v in LocalsTo(values, n) <==> 0 <= v < n && values[v].Alloca?
    ensures forall i, j :: 0 <= i < j < |LocalsTo(values, n)| ==> LocalsTo(values, n)[i] < LocalsTo(values, n)[j]
  {
    if n > 0 {
      LocalsToAre(values, n - 1);
      var s := LocalsTo(values, n - 1);
      assert forall i :: 0 <= i < |s| ==> s[i] in s;
    }
  }

  predicate IsLocalField(locals: seq<ValueId>, i: int) {
    FIRST_LOCAL_FIELD <= i < FIRST_LOCAL_FIELD + |locals|
  }

  /** Which local a field of the environment holds. */
  function LayoutOf(locals: seq<ValueId>): map<nat, ValueId> {
    map i: nat | 0 <= i < FIRST_LOCAL_FIELD + |locals| && IsLocalField(locals, i) :: locals[i - FIRST_LOCAL_FIELD]
  }

  /** Values 0 up to here are the environment and the addresses of the locals in it. */
  function FirstId(func: Function): nat {
    1 + |Locals(func)|
  }

  function BaseValues(func: Function): seq<Instruction> {
    [Alloca] + seq(|Locals(func)|, i requires 0 <= i => FieldPtr(Value(0), FIRST_LOCAL_FIELD + i))
  }

  /** Locals stand for their addresses in the environment. */
  ghost predicate LocalsMapped(func: Function, valMap: map<ValueId, ValueId>) {
    forall i :: 0 <= i < |Locals(func)| ==> Locals(func)[i] in valMap && valMap[Locals(func)[i]] == 1 + i
  }

  // ----- where the code of each point goes -----------------------------------------------

  function ResumeLabel(k: nat): Label {
    "resume_state_" + ToText(k)
  }

  datatype Loc = Loc(name: Label, pos: nat)

  /** Every block lists values of the function. */
  ghost predicate InRange(func: Function) {
    forall b, v :: 0 <= b < |func.blocks| && v in func.blocks[b].insts ==> v < |func.values|
  }

  predicate IsPoint(func: Function, b: nat, j: nat) {
    b < |func.blocks| && j <= |func.blocks[b].insts|
  }

  function InstAt(func: Function, b: nat, j: nat): Instruction
    requires b < |func.blocks| && j < |func.blocks[b].insts|
  {
    var v := func.blocks[b].insts[j];
    if v < |func.values| then func.values[v] else Nop
  }

  /** Awaits among the first `j` instructions of block `b`. */
  function AwaitsIn(func: Function, b: nat, j: nat): nat
    requires IsPoint(func, b, j)
  {
    if j == 0 then 0 else AwaitsIn(func, b, j - 1) + (if InstAt(func, b, j - 1).Await? then 1 else 0)
  }

  /** Awaits in the blocks before block `b`. */
  function AwaitsTo(func: Function, b: nat): nat
    requires b <= |func.blocks|
  {
    if b == 0 then 0 else AwaitsTo(func, b - 1) + AwaitsIn(func, b - 1, |func.blocks[b - 1].insts|)
  }

  function AwaitsBefore(func: Function, b: nat, j: nat): nat
    requires IsPoint(func, b, j)
  {
    AwaitsTo(func, b) + AwaitsIn(func, b, j)
  }

  /** The block and position at which the code for point `(b, j)` starts. */
  function LocOf(func: Function, b: nat, j: nat): Loc
    requires IsPoint(func, b, j)
  {
    if j == 0 then Loc(func.blocks[b].name, 0)
    else
      var prev := LocOf(func, b, j - 1);
      match InstAt(func, b, j - 1)
      case Alloca => prev
      case Await(_) => Loc(ResumeLabel(AwaitsBefore(func, b, j - 1) + 1), 5)
      case _ => prev.(pos := prev.pos + 1)
  }

  // ----- the code ------------------------------------------------------------------------

  /** A store to a field of the environment. */
  function HeaderStore(base: nat, field: nat, value: Operand): seq<Instruction> {
    [FieldPtr(Value(0), field), Store(Value(base), value)]
  }

  /** A poll result with the given status and, when ready with a value, that value. */
  function PollCode(base: nat, status: string, value: Option<Operand>): seq<Instruction> {
    [Alloca, FieldPtr(Value(base), 0), Store(Value(base + 1), Number(status))]
    + (match value
       case Some(op) => [FieldPtr(Value(base), 1), Store(Value(base + 3), op)]
       case None => [])
    + [Load(Value(base))]
  }

  /** Stores the awaited future, the next state and the status, and builds a pending result. */
  function SuspendCode(base: nat, future: Operand, k: nat): (code: seq<Instruction>)
    ensures |code| == 10
  {
    HeaderStore(base, CHILD_FIELD, future) + HeaderStore(base + 2, STATE_FIELD, Number(ToText(k)))
    + HeaderStore(base + 4, STATUS_FIELD, Number("0")) + PollCode(base + 6, "0", None)
  }

  /** Awaits the stored future and clears it. */
  function ResumeCode(base: nat): seq<Instruction> {
    [FieldPtr(Value(0), CHILD_FIELD), Load(Value(base)), Await(Value(base + 1)), Null,
      Store(Value(base), Value(base + 3))]
  }

  /** Marks the polled task completed and builds a ready result. */
  function ReadyCode(base: nat, value: Option<Operand>): seq<Instruction> {
    HeaderStore(base, STATE_FIELD, Number(ToText(FUTURE_STATE_COMPLETED)))
    + HeaderStore(base + 2, STATUS_FIELD, Number("1")) + PollCode(base + 4, "1", value)
  }

  function MapId(valMap: map<ValueId, ValueId>): ValueId -> ValueId {
    (v: ValueId) => if v in valMap then valMap[v] else v
  }

  /** The state of the translation: what has been emitted, and the block being filled. */
  datatype Cursor = Cursor(
    values: seq<Instruction>, valMap: map<ValueId, ValueId>, done: seq<BasicBlock>,
    isOpen: bool, name: Label, insts: seq<ValueId>, awaits: seq<ValueId>)

  function Blocks(c: Cursor): seq<BasicBlock> {
    if c.isOpen then c.done + [BasicBlock(c.name, c.insts, None)] else c.done
  }

  function Push(c: Cursor, inst: Instruction): Cursor {
    c.(values := c.values + [inst], insts := c.insts + [|c.values|])
  }

  function Close(c: Cursor, term: Option<Terminator>): Cursor {
    c.(done := c.done + [BasicBlock(c.name, c.insts, term)], isOpen := false)
  }

  function Open(c: Cursor, name: Label): Cursor {
    c.(isOpen := true, name := name, insts := [])
  }

  // ----- code in place -------------------------------------------------------------------

  ghost predicate CodeIn(values: seq<Instruction>, block: BasicBlock, pos: nat, base: nat, code: seq<Instruction>) {
    && pos + |code| <= |block.insts| && base + |code| <= |values|
    && (forall i :: pos <= i < pos + |code| ==> block.insts[i] == base + (i - pos))
    && values[base..base + |code|] == code
  }

  /** `code`, as values `base`, `base + 1` and so on, stands at `loc`. */
  ghost predicate CodeAt(c: Cursor, loc: Loc, base: nat, code: seq<Instruction>) {
    exists i :: 0 <= i < |Blocks(c)| && Blocks(c)[i].name == loc.name
      && CodeIn(c.values, Blocks(c)[i], loc.pos, base, code)
  }

  /** A finished block ends at `loc` with terminator `term`. */
  ghost predicate EndsAt(c: Cursor, loc: Loc, term: Option<Terminator>) {
    exists i :: 0 <= i < |c.done| && c.done[i] == BasicBlock(loc.name, c.done[i].insts, term)
      && |c.done[i].insts| == loc.pos
  }

  ghost predicate Known(c: Cursor, vs: seq<ValueId>) {
    forall v :: v in vs ==> v in c.valMap
  }

  /** The code of instruction `j` of block `b` is in place. */
  ghost predicate InstLaid(func: Function, c: Cursor, b: nat, j: nat)
    requires b < |func.blocks| && j < |func.blocks[b].insts|
  {
    var v := func.blocks[b].insts[j];
    var inst := InstAt(func, b, j);
    var loc := LocOf(func, b, j);
    inst.Alloca? ||
    (&& Known(c, Args(inst)) && v in c.valMap
     && (if inst.Await? then AwaitLaid(func, c, loc, c.valMap[v], inst.future, AwaitsBefore(func, b, j) + 1)
         else c.valMap[v] >= FirstId(func) && CodeAt(c, loc, c.valMap[v], [MapInst(inst, MapId(c.valMap))])))
  }

  /** An operand that code from `base` on does not overwrite. */
  predicate OpBelow(op: Operand, base: nat) {
    op.Value? ==> op.id < base
  }

  ghost predicate AwaitLaid(func: Function, c: Cursor, loc: Loc, id: nat, future: Operand, k: nat) {
    && id >= FirstId(func) + 12
    && var base := id - 12;
    && OpBelow(MapOp(future, MapId(c.valMap)), base)
    && CodeAt(c, loc, base, SuspendCode(base, MapOp(future, MapId(c.valMap)), k))
    && EndsAt(c, Loc(loc.name, loc.pos + 10), Some(Ret(Some(Value(base + 9)))))
    && CodeAt(c, Loc(ResumeLabel(k), 0), base + 10, ResumeCode(base + 10))
  }

  function TermArgs(term: Option<Terminator>): seq<ValueId> {
    match term
    case Some(CondBr(condition, _, _)) => OpArg(condition)
    case Some(Ret(Some(op))) => OpArg(op)
    case _ => []
  }

  ghost predicate ReadyLaid(func: Function, c: Cursor, loc: Loc, base: nat, value: Option<Operand>) {
    var code := ReadyCode(base, value);
    && base >= FirstId(func) && (value.Some? ==> OpBelow(value.value, base))
    && CodeAt(c, loc, base, code)
    && EndsAt(c, Loc(loc.name, loc.pos + |code|), Some(Ret(Some(Value(base + |code| - 1)))))
  }

  /** The code of the terminator of block `b` is in place. */
  ghost predicate TermLaid(func: Function, c: Cursor, b: nat)
    requires b < |func.blocks|
  {
    var loc := LocOf(func, b, |func.blocks[b].insts|);
    && Known(c, TermArgs(func.blocks[b].terminator))
    && match func.blocks[b].terminator
       case Some(Ret(value)) =>
         exists base :: ReadyLaid(func, c, loc, base, MapValue(value, MapId(c.valMap)))
       case Some(CondBr(condition, trueTarget, falseTarget)) =>
         EndsAt(c, loc, Some(CondBr(MapOp(condition, MapId(c.valMap)), trueTarget, falseTarget)))
       case term => EndsAt(c, loc, term)
  }

  function MapValue(value: Option<Operand>, g: ValueId -> ValueId): Option<Operand> {
    match value
    case Some(op) => Some(MapOp(op, g))
    case None => None
  }

  // ----- growth --------------------------------------------------------------------------

  /** `c'` has all that `c` has: values, finished blocks, and more code in the open one. */
  ghost predicate Grows(c: Cursor, c': Cursor) {
    && c.values <= c'.values
    && (forall v :: v in c.valMap ==> v in c'.valMap && c'.valMap[v] == c.valMap[v])
    && c.done <= c'.done
    && |Blocks(c)| <= |Blocks(c')|
    && (forall i :: 0 <= i < |Blocks(c)| ==>
          Blocks(c')[i].name == Blocks(c)[i].name && Blocks(c)[i].insts <= Blocks(c')[i].insts)
  }

  lemma CodeStays(c: Cursor, c': Cursor, loc: Loc, base: nat, code: seq<Instruction>)
    requires Grows(c, c') && CodeAt(c, loc, base, code)
    ensures CodeAt(c', loc, base, code)
  {
    var i :| 0 <= i < |Blocks(c)| && Blocks(c)[i].name == loc.name
      && CodeIn(c.values, Blocks(c)[i], loc.pos, base, code);
    assert CodeIn(c'.values, Blocks(c')[i], loc.pos, base, code);
  }

  lemma EndStays(c: Cursor, c': Cursor, loc: Loc, term: Option<Terminator>)
    requires Grows(c, c') && EndsAt(c, loc, term)
    ensures EndsAt(c', loc, term)
  {
    var i :| 0 <= i < |c.done| && c.done[i] == BasicBlock(loc.name, c.done[i].insts, term)
      && |c.done[i].insts| == loc.pos;
    assert c'.done[i] == c.done[i];
  }

  lemma MapStays(c: Cursor, c': Cursor, vs: seq<ValueId>)
    requires Grows(c, c') && Known(c, vs)
    ensures Known(c', vs) && AgreeOn(vs, MapId(c.valMap), MapId(c'.valMap))
  {}

  lemma InstLaidStays(func: Function, c: Cursor, c': Cursor, b: nat, j: nat)
    requires b < |func.blocks| && j < |func.blocks[b].insts|
    requires Grows(c, c') && InstLaid(func, c, b, j)
    ensures InstLaid(func, c', b, j)
  {
    var v := func.blocks[b].insts[j];
    var inst := InstAt(func, b, j);
    var loc := LocOf(func, b, j);
    if !inst.Alloca? {
      MapStays(c, c', Args(inst));
      InstAgrees(inst, MapId(c.valMap), MapId(c'.valMap));
      assert c'.valMap[v] == c.valMap[v];
      hide Grows, CodeAt, EndsAt, LocOf, AwaitsBefore, FirstId, MapInst;
      if inst.Await? {
        OpAgrees(inst.future, MapId(c.valMap), MapId(c'.valMap));
        AwaitLaidStays(func, c, c', loc, c.valMap[v], inst.future, AwaitsBefore(func, b, j) + 1);
      } else {
        CodeStays(c, c', loc, c.valMap[v], [MapInst(inst, MapId(c.valMap))]);
      }
    }
  }

  lemma AwaitLaidStays(func: Function, c: Cursor, c': Cursor, loc: Loc, id: nat, future: Operand, k: nat)
    requires Grows(c, c') && AwaitLaid(func, c, loc, id, future, k)
    requires MapOp(future, MapId(c.valMap)) == MapOp(future, MapId(c'.valMap))
    ensures AwaitLaid(func, c', loc, id, future, k)
  {
    hide Grows, CodeAt, EndsAt, FirstId, SuspendCode, ResumeCode;
    var base := id - 12;
    CodeStays(c, c', loc, base, SuspendCode(base, MapOp(future, MapId(c.valMap)), k));
    EndStays(c, c', Loc(loc.name, loc.pos + 10), Some(Ret(Some(Value(base + 9)))));
    CodeStays(c, c', Loc(ResumeLabel(k), 0), base + 10, ResumeCode(base + 10));
  }

  lemma TermLaidStays(func: Function, c: Cursor, c': Cursor, b: nat)
    requires b < |func.blocks| && Grows(c, c') && TermLaid(func, c, b)
    ensures TermLaid(func, c', b)
  {
    var loc := LocOf(func, b, |func.blocks[b].insts|);
    var term := func.blocks[b].terminator;
    MapStays(c, c', TermArgs(term));
    hide Grows, CodeAt, EndsAt, LocOf, FirstId;
    match term
    case Some(Ret(value)) =>
      if value.Some? { OpAgrees(value.value, MapId(c.valMap), MapId(c'.valMap)); }
      var base: nat :| ReadyLaid(func, c, loc, base, MapValue(value, MapId(c.valMap)));
      ReadyLaidStays(func, c, c', loc, base, MapValue(value, MapId(c.valMap)));
      assert MapValue(value, MapId(c.valMap)) == MapValue(value, MapId(c'.valMap));
    case Some(CondBr(condition, trueTarget, falseTarget)) =>
      OpAgrees(condition, MapId(c.valMap), MapId(c'.valMap));
      EndStays(c, c', loc, Some(CondBr(MapOp(condition, MapId(c.valMap)), trueTarget, falseTarget)));
    case _ => EndStays(c, c', loc, term);
  }

  lemma ReadyLaidStays(func: Function, c: Cursor, c': Cursor, loc: Loc, base: nat, value: Option<Operand>)
    requires Grows(c, c') && ReadyLaid(func, c, loc, base, value)
    ensures ReadyLaid(func, c', loc, base, value)
  {
    hide Grows, CodeAt, EndsAt, FirstId;
    var code := ReadyCode(base, value);
    CodeStays(c, c', loc, base, code);
    EndStays(c, c', Loc(loc.name, loc.pos + |code|), Some(Ret(Some(Value(base + |code| - 1)))));
  }

  // ----- what the translation keeps ------------------------------------------------------

  predicate Before(b': nat, j': nat, b: nat, j: nat) {
    b' < b || (b' == b && j' < j)
  }

  /** `v` is listed before point `(b, j)`, blocks taken in order. */
  ghost predicate ListedBefore(func: Function, b: nat, j: nat, v: ValueId) {
    exists b', j' :: ListedAt(func, b', j', v) && Before(b', j', b, j)
  }

  ghost predicate ListedAt(func: Function, b: nat, j: nat, v: ValueId) {
    b < |func.blocks| && j < |func.blocks[b].insts| && func.blocks[b].insts[j] == v
  }

  /** Operands are locals or defined before they are used, blocks taken in order. */
  ghost predicate DefinedFirst(func: Function) {
    && (forall b: nat, j: nat, v: ValueId ::
          IsPoint(func, b, j) && j < |func.blocks[b].insts| && v in Args(InstAt(func, b, j)) ==>
          IsLocal(func, v) || ListedBefore(func, b, j, v))
    && (forall b, v :: 0 <= b < |func.blocks| && v in TermArgs(func.blocks[b].terminator) ==>
          IsLocal(func, v) || ListedBefore(func, b, |func.blocks[b].insts|, v))
  }

  /** No block has a name that lowering makes up for the blocks behind an await. */
  ghost predicate ResumeLabelsFresh(func: Function) {
    forall b, k :: 0 <= b < |func.blocks| && 1 <= k <= AwaitsTo(func, |func.blocks|) ==>
      func.blocks[b].name != ResumeLabel(k)
  }

  ghost predicate Lowerable(func: Function) {
    InRange(func) && ListedOnce(func) && DistinctLabels(func.blocks) && DefinedFirst(func) && ResumeLabelsFresh(func)
  }

  /** Locals and the values listed before the point, and no others, are mapped, each to an id of
      its own. */
  ghost predicate Mapped(func: Function, c: Cursor, b: nat, j: nat) {
    && BaseValues(func) <= c.values
    && LocalsMapped(func, c.valMap)
    && (forall v :: v in c.valMap <==> IsLocal(func, v) || ListedBefore(func, b, j, v))
    && (forall v :: v in c.valMap ==> c.valMap[v] < |c.values| && (IsLocal(func, v) || c.valMap[v] >= FirstId(func)))
    && (forall u, v :: u in c.valMap && v in c.valMap && c.valMap[u] == c.valMap[v] ==> u == v)
  }

  /** `n` is the number of blocks of the function met so far. */
  ghost predicate Labelled(func: Function, c: Cursor, n: nat) {
    && DistinctLabels(Blocks(c))
    && forall i :: 0 <= i < |Blocks(c)| ==> Named(func, Blocks(c)[i].name, n, |c.awaits|)
  }

  ghost predicate Named(func: Function, name: Label, n: nat, awaits: nat) {
    || (exists b :: 0 <= b < n && b < |func.blocks| && func.blocks[b].name == name)
    || (exists k :: 1 <= k <= awaits && name == ResumeLabel(k))
  }

  ghost predicate Laid(func: Function, c: Cursor, b: nat, j: nat) {
    && (forall b', j' {:trigger InstLaid(func, c, b', j')} ::
          0 <= b' < |func.blocks| && 0 <= j' < |func.blocks[b'].insts| && Before(b', j', b, j) ==>
            InstLaid(func, c, b', j'))
    && (forall b' {:trigger TermLaid(func, c, b')} :: 0 <= b' < b && b' < |func.blocks| ==> TermLaid(func, c, b'))
  }

  /** The translation has come to point `(b, j)`. */
  ghost predicate CameTo(func: Function, c: Cursor, b: nat, j: nat) {
    && IsPoint(func, b, j) && c.isOpen
    && Loc(c.name, |c.insts|) == LocOf(func, b, j) && |c.awaits| == AwaitsBefore(func, b, j)
    && Mapped(func, c, b, j) && Labelled(func, c, b + 1) && Laid(func, c, b, j)
  }

  /** The translation is between blocks, before block `b`. */
  ghost predicate CameToBlock(func: Function, c: Cursor, b: nat) {
    && b <= |func.blocks| && !c.isOpen
    && |c.awaits| == AwaitsTo(func, b)
    && Mapped(func, c, b, 0) && Labelled(func, c, b) && Laid(func, c, b, 0)
  }

  lemma LaidStays(func: Function, c: Cursor, c': Cursor, b: nat, j: nat)
    requires Grows(c, c') && Laid(func, c, b, j)
    ensures Laid(func, c', b, j)
  {
    hide InstLaid, TermLaid, Grows;
    forall b', j' | 0 <= b' < |func.blocks| && 0 <= j' < |func.blocks[b'].insts| && Before(b', j', b, j)
      ensures InstLaid(func, c', b', j')
    {
      InstLaidStays(func, c, c', b', j');
    }
    forall b' | 0 <= b' < b && b' < |func.blocks| ensures TermLaid(func, c', b') {
      TermLaidStays(func, c, c', b');
    }
  }

  lemma {:induction false} AwaitsInTo(func: Function, b: nat, j: nat, j': nat)
    requires IsPoint(func, b, j') && j <= j'
    ensures AwaitsIn(func, b, j) <= AwaitsIn(func, b, j')
    decreases j' - j
  {
    if j < j' {
      AwaitsInTo(func, b, j, j' - 1);
    }
  }

  lemma {:induction false} AwaitsUpTo(func: Function, b: nat, b': nat)
    requires b <= b' <= |func.blocks|
    ensures AwaitsTo(func, b) <= AwaitsTo(func, b')
    decreases b' - b
  {
    if b < b' {
      AwaitsUpTo(func, b, b' - 1);
    }
  }

  lemma AwaitsBounded(func: Function, b: nat, j: nat)
    requires IsPoint(func, b, j) && b < |func.blocks|
    ensures AwaitsBefore(func, b, j) <= AwaitsTo(func, |func.blocks|)
  {
    AwaitsInTo(func, b, j, |func.blocks[b].insts|);
    AwaitsUpTo(func, b + 1, |func.blocks|);
  }

  /** The value listed at a point has not been listed before. */
  lemma NewlyListed(func: Function, b: nat, j: nat)
    requires ListedOnce(func) && b < |func.blocks| && j < |func.blocks[b].insts|
    ensures !ListedBefore(func, b, j, func.blocks[b].insts[j])
    ensures forall v :: ListedBefore(func, b, j + 1, v) <==> ListedBefore(func, b, j, v) || v == func.blocks[b].insts[j]
  {
    var x := func.blocks[b].insts[j];
    forall v ensures ListedBefore(func, b, j + 1, v) <==> ListedBefore(func, b, j, v) || v == x {
      if v == x {
        assert ListedAt(func, b, j, v) && Before(b, j, b, j + 1);
      }
      if ListedBefore(func, b, j, v) {
        var b', j' :| ListedAt(func, b', j', v) && Before(b', j', b, j);
        assert Before(b', j', b, j + 1);
      }
      if ListedBefore(func, b, j + 1, v) && v != x {
        var b', j' :| ListedAt(func, b', j', v) && Before(b', j', b, j + 1);
        assert Before(b', j', b, j);
      }
    }
  }

  // ----- one instruction -----------------------------------------------------------------

  function Ids(base: nat, n: nat): seq<ValueId> {
    seq(n, k requires 0 <= k => base + k)
  }

  function PushAll(c: Cursor, code: seq<Instruction>): Cursor {
    c.(values := c.values + code, insts := c.insts + Ids(|c.values|, |code|))
  }

  lemma PushAllGrows(c: Cursor, code: seq<Instruction>, valMap: map<ValueId, ValueId>)
    requires c.isOpen && forall v :: v in c.valMap ==> v in valMap && valMap[v] == c.valMap[v]
    ensures Grows(c, PushAll(c, code).(valMap := valMap))
    ensures CodeAt(PushAll(c, code).(valMap := valMap), Loc(c.name, |c.insts|), |c.values|, code)
  {
    var c' := PushAll(c, code).(valMap := valMap);
    var i := |c.done|;
    assert Blocks(c')[i].insts == Blocks(c)[i].insts + Ids(|c.values|, |code|);
    forall k | 0 <= k < |Blocks(c)| ensures Blocks(c)[k].insts <= Blocks(c')[k].insts {
      if k < i { assert Blocks(c')[k] == Blocks(c)[k]; }
    }
    assert CodeIn(c'.values, Blocks(c')[i], |c.insts|, |c.values|, code);
  }

  lemma PushAllLabels(func: Function, c: Cursor, code: seq<Instruction>, valMap: map<ValueId, ValueId>, n: nat)
    requires c.isOpen && Labelled(func, c, n)
    ensures Labelled(func, PushAll(c, code).(valMap := valMap), n)
  {
    var c' := PushAll(c, code).(valMap := valMap);
    assert forall i :: 0 <= i < |Blocks(c')| ==> Blocks(c')[i].name == Blocks(c)[i].name;
  }

  lemma FirstFree(func: Function, c: Cursor, b: nat, j: nat)
    requires Mapped(func, c, b, j)
    ensures FirstId(func) <= |c.values|
  {
    assert |BaseValues(func)| == FirstId(func);
  }

  /** Mapping the value listed at a point to one of the values just added. */
  lemma MapOneMore(func: Function, c: Cursor, b: nat, j: nat, values: seq<Instruction>, id: ValueId)
    requires Lowerable(func) && Mapped(func, c, b, j) && b < |func.blocks| && j < |func.blocks[b].insts|
    requires !IsLocal(func, func.blocks[b].insts[j])
    requires c.values <= values && |c.values| <= id < |values|
    ensures func.blocks[b].insts[j] !in c.valMap
    ensures Mapped(func, c.(values := values, valMap := c.valMap[func.blocks[b].insts[j] := id]), b, j + 1)
  {
    NewlyListed(func, b, j);
    FirstFree(func, c, b, j);
    hide ListedBefore;
    LocalsToAre(func.values, |func.values|);
    var v := func.blocks[b].insts[j];
    forall i | 0 <= i < |Locals(func)| ensures Locals(func)[i] != v {
      assert Locals(func)[i] in Locals(func);
    }
  }

  /** A local listed at a point changes nothing. */
  lemma MapLocal(func: Function, c: Cursor, b: nat, j: nat)
    requires Lowerable(func) && Mapped(func, c, b, j) && b < |func.blocks| && j < |func.blocks[b].insts|
    requires IsLocal(func, func.blocks[b].insts[j])
    ensures Mapped(func, c, b, j + 1)
  {
    NewlyListed(func, b, j);
  }

  lemma ArgsKnown(func: Function, c: Cursor, b: nat, j: nat)
    requires Lowerable(func) && Mapped(func, c, b, j) && b < |func.blocks| && j < |func.blocks[b].insts|
    ensures Known(c, Args(InstAt(func, b, j)))
  {
    hide ListedBefore;
    forall v | v in Args(InstAt(func, b, j)) ensures v in c.valMap {
      assert IsPoint(func, b, j);
    }
  }

  lemma LaidOneMore(func: Function, c: Cursor, c': Cursor, b: nat, j: nat)
    requires Grows(c, c') && Laid(func, c, b, j) && b < |func.blocks| && j < |func.blocks[b].insts|
    requires InstLaid(func, c', b, j)
    ensures Laid(func, c', b, j + 1)
  {
    LaidStays(func, c, c', b, j);
    hide InstLaid, TermLaid, Grows;
    forall b', j' | 0 <= b' < |func.blocks| && 0 <= j' < |func.blocks[b'].insts| && Before(b', j', b, j + 1)
      ensures InstLaid(func, c', b', j')
    {
      if b' == b && j' == j {
      } else {
        assert Before(b', j', b, j);
      }
    }
  }

  /** An instruction that is neither a local's nor an await, with its operands mapped. */
  function GeneralCursor(c: Cursor, v: ValueId, inst: Instruction): Cursor {
    PushAll(c, [MapInst(inst, MapId(c.valMap))]).(valMap := c.valMap[v := |c.values|])
  }

  lemma GeneralLaid(func: Function, c: Cursor, b: nat, j: nat)
    requires Lowerable(func) && CameTo(func, c, b, j) && j < |func.blocks[b].insts|
    requires !InstAt(func, b, j).Alloca? && !InstAt(func, b, j).Await?
    ensures CameTo(func, GeneralCursor(c, func.blocks[b].insts[j], InstAt(func, b, j)), b, j + 1)
  {
    hide Mapped, Labelled, Laid, InstLaid, GeneralCursor, Grows, Lowerable, CodeAt;
    var v, inst := func.blocks[b].insts[j], InstAt(func, b, j);
    GeneralMapped(func, c, b, j);
    GeneralFields(func, c, v, inst, b + 1);
    ArgsKnown(func, c, b, j);
    GeneralInstLaid(func, c, GeneralCursor(c, v, inst), b, j);
    LaidOneMore(func, c, GeneralCursor(c, v, inst), b, j);
  }

  lemma GeneralMapped(func: Function, c: Cursor, b: nat, j: nat)
    requires Lowerable(func) && Mapped(func, c, b, j) && b < |func.blocks| && j < |func.blocks[b].insts|
    requires !InstAt(func, b, j).Alloca?
    ensures Mapped(func, GeneralCursor(c, func.blocks[b].insts[j], InstAt(func, b, j)), b, j + 1)
    ensures func.blocks[b].insts[j] !in c.valMap
  {
    hide ListedBefore, ListedOnce, DefinedFirst, ResumeLabelsFresh, MapInst;
    var v, inst := func.blocks[b].insts[j], InstAt(func, b, j);
    var c' := GeneralCursor(c, v, inst);
    assert v in func.blocks[b].insts;
    MapOneMore(func, c, b, j, c'.values, |c.values|);
    MappedAlike(func, c.(values := c'.values, valMap := c'.valMap), c', b, j + 1);
  }

  lemma GeneralFields(func: Function, c: Cursor, v: ValueId, inst: Instruction, n: nat)
    requires c.isOpen && v !in c.valMap && Labelled(func, c, n)
    ensures var c' := GeneralCursor(c, v, inst);
            && c'.isOpen && c'.name == c.name && |c'.insts| == |c.insts| + 1 && c'.awaits == c.awaits
            && Grows(c, c') && Labelled(func, c', n)
            && CodeAt(c', Loc(c.name, |c.insts|), |c.values|, [MapInst(inst, MapId(c.valMap))])
  {
    hide Grows, Labelled, CodeAt, MapInst;
    var code := [MapInst(inst, MapId(c.valMap))];
    PushAllGrows(c, code, c.valMap[v := |c.values|]);
    PushAllLabels(func, c, code, c.valMap[v := |c.values|], n);
  }

  lemma GeneralInstLaid(func: Function, c: Cursor, c': Cursor, b: nat, j: nat)
    requires b < |func.blocks| && j < |func.blocks[b].insts| && Mapped(func, c, b, j)
    requires !InstAt(func, b, j).Alloca? && !InstAt(func, b, j).Await?
    requires Loc(c.name, |c.insts|) == LocOf(func, b, j)
    requires c' == GeneralCursor(c, func.blocks[b].insts[j], InstAt(func, b, j))
    requires Grows(c, c') && Known(c, Args(InstAt(func, b, j)))
    requires CodeAt(c', Loc(c.name, |c.insts|), |c.values|, [MapInst(InstAt(func, b, j), MapId(c.valMap))])
    ensures InstLaid(func, c', b, j)
  {
    var inst := InstAt(func, b, j);
    MapStays(c, c', Args(inst));
    InstAgrees(inst, MapId(c.valMap), MapId(c'.valMap));
    FirstFree(func, c, b, j);
  }

  lemma GrowsTrans(c: Cursor, c': Cursor, c'': Cursor)
    requires Grows(c, c') && Grows(c', c'')
    ensures Grows(c, c'')
  {
    hide Blocks;
    forall i | 0 <= i < |Blocks(c)| ensures Blocks(c)[i].insts <= Blocks(c'')[i].insts {
      assert Blocks(c)[i].insts <= Blocks(c')[i].insts <= Blocks(c'')[i].insts;
    }
  }

  /** Ending the open block and opening another. */
  function Split(c: Cursor, term: Option<Terminator>, name: Label): Cursor {
    Open(Close(c, term), name)
  }

  lemma CloseGrows(c: Cursor, term: Option<Terminator>)
    requires c.isOpen
    ensures Grows(c, Close(c, term)) && EndsAt(Close(c, term), Loc(c.name, |c.insts|), term)
  {
    assert Close(c, term).done[|c.done|] == BasicBlock(c.name, c.insts, term);
  }

  lemma OpenGrows(c: Cursor, name: Label)
    requires !c.isOpen
    ensures Grows(c, Open(c, name))
  {}

  lemma OpenLabels(func: Function, c: Cursor, name: Label, n: nat, awaits: seq<ValueId>, n': nat)
    requires !c.isOpen && Labelled(func, c, n) && n <= n' && |c.awaits| <= |awaits|
    requires forall i :: 0 <= i < |Blocks(c)| ==> Blocks(c)[i].name != name
    requires Named(func, name, n', |awaits|)
    ensures Labelled(func, Open(c, name).(awaits := awaits), n')
  {
    var c' := Open(c, name).(awaits := awaits);
    assert Blocks(c') == Blocks(c) + [BasicBlock(name, [], None)];
    forall i | 0 <= i < |Blocks(c')| ensures Named(func, Blocks(c')[i].name, n', |awaits|) {
      if i < |Blocks(c)| { NamedStays(func, Blocks(c)[i].name, n, |c.awaits|, n', |awaits|); }
    }
  }

  lemma NamedStays(func: Function, name: Label, n: nat, awaits: nat, n': nat, awaits': nat)
    requires Named(func, name, n, awaits) && n <= n' && awaits <= awaits'
    ensures Named(func, name, n', awaits')
  {
    if b :| 0 <= b < n && b < |func.blocks| && func.blocks[b].name == name {
      assert 0 <= b < n' && func.blocks[b].name == name;
    } else {
      var k :| 1 <= k <= awaits && name == ResumeLabel(k);
      assert 1 <= k <= awaits' && name == ResumeLabel(k);
    }
  }

  lemma CloseLabels(func: Function, c: Cursor, term: Option<Terminator>, n: nat)
    requires c.isOpen && Labelled(func, c, n)
    ensures Labelled(func, Close(c, term), n)
  {
    var c' := Close(c, term);
    assert forall i :: 0 <= i < |Blocks(c')| ==> Blocks(c')[i].name == Blocks(c)[i].name;
  }

  /** A resume label is new when its number is. */
  lemma ResumeLabelNew(func: Function, name: Label, n: nat, awaits: nat, k: nat)
    requires ResumeLabelsFresh(func) && Named(func, name, n, awaits)
    requires awaits < k <= AwaitsTo(func, |func.blocks|)
    ensures name != ResumeLabel(k)
  {
    if k' :| 1 <= k' <= awaits && name == ResumeLabel(k') {
      TextsDiffer("resume_state_", k, k');
    }
  }

  /** The two halves of an await: suspend at the end of the open block, resume in the next. */
  function AwaitCursor(c: Cursor, v: ValueId, future: Operand): Cursor {
    var base, k := |c.values|, |c.awaits| + 1;
    var first := PushAll(c, SuspendCode(base, MapOp(future, MapId(c.valMap)), k));
    var next := Split(first, Some(Ret(Some(Value(base + 9)))), ResumeLabel(k)).(awaits := c.awaits + [v]);
    PushAll(next, ResumeCode(base + 10)).(valMap := c.valMap[v := base + 12])
  }

  /** The code of an await in a cursor that has just emitted it. */
  lemma AwaitCode(func: Function, c: Cursor, v: ValueId, future: Operand)
    requires c.isOpen && v !in c.valMap
    ensures var c', base, k := AwaitCursor(c, v, future), |c.values|, |c.awaits| + 1;
            && Grows(c, c')
            && CodeAt(c', Loc(c.name, |c.insts|), base, SuspendCode(base, MapOp(future, MapId(c.valMap)), k))
            && EndsAt(c', Loc(c.name, |c.insts| + 10), Some(Ret(Some(Value(base + 9)))))
            && CodeAt(c', Loc(ResumeLabel(k), 0), base + 10, ResumeCode(base + 10))
  {
    var base, k := |c.values|, |c.awaits| + 1;
    var suspend := SuspendCode(base, MapOp(future, MapId(c.valMap)), k);
    var first := PushAll(c, suspend);
    var term := Some(Ret(Some(Value(base + 9))));
    var closed := Close(first, term);
    var next := Open(closed, ResumeLabel(k)).(awaits := c.awaits + [v]);
    var c' := AwaitCursor(c, v, future);
    hide Grows, CodeAt, EndsAt, Blocks, MapOp;
    PushAllGrows(c, suspend, c.valMap);
    CloseGrows(first, term);
    OpenGrows(closed, ResumeLabel(k));
    AwaitsAside(closed, Open(closed, ResumeLabel(k)), c.awaits + [v]);
    PushAllGrows(next, ResumeCode(base + 10), c.valMap[v := base + 12]);
    GrowsTrans(first, closed, next);
    GrowsTrans(first, next, c');
    GrowsTrans(c, first, c');
    GrowsTrans(closed, next, c');
    CodeStays(first, c', Loc(c.name, |c.insts|), base, suspend);
    EndStays(closed, c', Loc(c.name, |c.insts| + 10), term);
  }

  lemma AwaitsAside(c: Cursor, c': Cursor, awaits: seq<ValueId>)
    requires Grows(c, c')
    ensures Grows(c, c'.(awaits := awaits))
  {}

  lemma AwaitLabels(func: Function, c: Cursor, v: ValueId, future: Operand, n: nat)
    requires ResumeLabelsFresh(func) && c.isOpen && Labelled(func, c, n)
    requires |c.awaits| < AwaitsTo(func, |func.blocks|)
    ensures Labelled(func, AwaitCursor(c, v, future), n)
  {
    var base, k := |c.values|, |c.awaits| + 1;
    var suspend, term := SuspendCode(base, MapOp(future, MapId(c.valMap)), k), Some(Ret(Some(Value(base + 9))));
    var first := PushAll(c, suspend);
    var closed := Close(first, term);
    PushAllLabels(func, c, suspend, c.valMap, n);
    CloseLabels(func, first, term, n);
    AllOld(func, closed, n, k);
    assert Named(func, ResumeLabel(k), n, k);
    hide Labelled, Blocks, ResumeLabel, SuspendCode, Named, ResumeLabelsFresh, AwaitsTo, MapOp;
    OpenLabels(func, closed, ResumeLabel(k), n, c.awaits + [v], n);
    var next := Open(closed, ResumeLabel(k)).(awaits := c.awaits + [v]);
    PushAllLabels(func, next, ResumeCode(base + 10), c.valMap[v := base + 12], n);
  }

  lemma AllOld(func: Function, c: Cursor, n: nat, k: nat)
    requires ResumeLabelsFresh(func) && Labelled(func, c, n)
    requires |c.awaits| < k <= AwaitsTo(func, |func.blocks|)
    ensures forall i :: 0 <= i < |Blocks(c)| ==> Blocks(c)[i].name != ResumeLabel(k)
  {
    hide Named;
    forall i | 0 <= i < |Blocks(c)| ensures Blocks(c)[i].name != ResumeLabel(k) {
      ResumeLabelNew(func, Blocks(c)[i].name, n, |c.awaits|, k);
    }
  }

  lemma AwaitFields(c: Cursor, v: ValueId, future: Operand)
    ensures var c' := AwaitCursor(c, v, future);
            && c'.isOpen && c'.name == ResumeLabel(|c.awaits| + 1) && |c'.insts| == 5 && |c'.awaits| == |c.awaits| + 1
            && c.values <= c'.values && |c'.values| == |c.values| + 15 && c'.valMap == c.valMap[v := |c.values| + 12]
  {}

  lemma MappedAlike(func: Function, c: Cursor, c': Cursor, b: nat, j: nat)
    requires Mapped(func, c, b, j) && c'.values == c.values && c'.valMap == c.valMap
    ensures Mapped(func, c', b, j)
  {}

  lemma AwaitMapped(func: Function, c: Cursor, b: nat, j: nat)
    requires Lowerable(func) && Mapped(func, c, b, j) && b < |func.blocks| && j < |func.blocks[b].insts|
    requires InstAt(func, b, j).Await?
    ensures Mapped(func, AwaitCursor(c, func.blocks[b].insts[j], InstAt(func, b, j).future), b, j + 1)
    ensures func.blocks[b].insts[j] !in c.valMap
  {
    var v, future := func.blocks[b].insts[j], InstAt(func, b, j).future;
    var c' := AwaitCursor(c, v, future);
    assert v in func.blocks[b].insts;
    AwaitFields(c, v, future);
    hide AwaitCursor, ListedBefore;
    MapOneMore(func, c, b, j, c'.values, |c.values| + 12);
    MappedAlike(func, c.(values := c'.values, valMap := c'.valMap), c', b, j + 1);
  }

  lemma AwaitInPlace(func: Function, c: Cursor, b: nat, j: nat)
    requires Lowerable(func) && Mapped(func, c, b, j) && c.isOpen && b < |func.blocks| && j < |func.blocks[b].insts|
    requires Loc(c.name, |c.insts|) == LocOf(func, b, j) && |c.awaits| == AwaitsBefore(func, b, j)
    requires InstAt(func, b, j).Await? && func.blocks[b].insts[j] !in c.valMap
    ensures Grows(c, AwaitCursor(c, func.blocks[b].insts[j], InstAt(func, b, j).future))
    ensures InstLaid(func, AwaitCursor(c, func.blocks[b].insts[j], InstAt(func, b, j).future), b, j)
  {
    hide AwaitCursor, InstLaid, FirstId, CodeAt, EndsAt, Lowerable, Mapped, Grows, Args, MapOp, SuspendCode,
      ResumeCode, MapId, AgreeOn;
    var v, inst := func.blocks[b].insts[j], InstAt(func, b, j);
    var c' := AwaitCursor(c, v, inst.future);
    FirstFree(func, c, b, j);
    ArgsKnown(func, c, b, j);
    FutureBelow(func, c, b, j, inst);
    AwaitFields(c, v, inst.future);
    AwaitCode(func, c, v, inst.future);
    MapStays(c, c', Args(inst));
    AwaitArgs(inst, MapId(c.valMap), MapId(c'.valMap));
    AwaitIsLaid(func, c', b, j, |c.values|);
  }

  lemma OpIsBelow(func: Function, c: Cursor, b: nat, j: nat, op: Operand)
    requires Mapped(func, c, b, j) && Known(c, OpArg(op))
    ensures OpBelow(MapOp(op, MapId(c.valMap)), |c.values|)
  {
    hide ListedBefore;
    if op.Value? { assert op.id in OpArg(op); }
  }

  lemma FutureBelow(func: Function, c: Cursor, b: nat, j: nat, inst: Instruction)
    requires Mapped(func, c, b, j) && inst.Await? && Known(c, Args(inst))
    ensures OpBelow(MapOp(inst.future, MapId(c.valMap)), |c.values|)
  {
    hide Mapped;
    OpIsBelow(func, c, b, j, inst.future);
  }

  lemma AwaitInstLaid(func: Function, c: Cursor, b: nat, j: nat)
    requires Lowerable(func) && CameTo(func, c, b, j) && j < |func.blocks[b].insts| && InstAt(func, b, j).Await?
    ensures CameTo(func, AwaitCursor(c, func.blocks[b].insts[j], InstAt(func, b, j).future), b, j + 1)
  {
    hide Mapped, Labelled, Laid, InstLaid, AwaitCursor, Grows, ListedOnce, DefinedFirst, InRange, ResumeLabelsFresh,
      ResumeLabel;
    var v, future := func.blocks[b].insts[j], InstAt(func, b, j).future;
    AwaitFields(c, v, future);
    AwaitsBounded(func, b, j + 1);
    AwaitMapped(func, c, b, j);
    AwaitInPlace(func, c, b, j);
    AwaitLabels(func, c, v, future, b + 1);
    LaidOneMore(func, c, AwaitCursor(c, v, future), b, j);
  }

  lemma AwaitArgs(inst: Instruction, g: ValueId -> ValueId, h: ValueId -> ValueId)
    requires inst.Await? && AgreeOn(Args(inst), g, h)
    ensures MapOp(inst.future, g) == MapOp(inst.future, h)
  {
    OpAgrees(inst.future, g, h);
  }

  lemma AwaitIsLaid(func: Function, c: Cursor, b: nat, j: nat, base: nat)
    requires b < |func.blocks| && j < |func.blocks[b].insts| && InstAt(func, b, j).Await?
    requires Known(c, Args(InstAt(func, b, j))) && base >= FirstId(func)
    requires func.blocks[b].insts[j] in c.valMap && c.valMap[func.blocks[b].insts[j]] == base + 12
    requires var loc, future, k := LocOf(func, b, j), InstAt(func, b, j).future, AwaitsBefore(func, b, j) + 1;
             && OpBelow(MapOp(future, MapId(c.valMap)), base)
             && CodeAt(c, loc, base, SuspendCode(base, MapOp(future, MapId(c.valMap)), k))
             && EndsAt(c, Loc(loc.name, loc.pos + 10), Some(Ret(Some(Value(base + 9)))))
             && CodeAt(c, Loc(ResumeLabel(k), 0), base + 10, ResumeCode(base + 10))
    ensures InstLaid(func, c, b, j)
  {
    hide CodeAt, EndsAt, LocOf, AwaitsBefore;
  }

  lemma LocalLaid(func: Function, c: Cursor, b: nat, j: nat)
    requires Lowerable(func) && CameTo(func, c, b, j) && j < |func.blocks[b].insts| && InstAt(func, b, j).Alloca?
    ensures CameTo(func, c, b, j + 1)
  {
    hide Mapped, Labelled, Laid, ListedOnce, DefinedFirst, ResumeLabelsFresh;
    assert func.blocks[b].insts[j] in func.blocks[b].insts;
    MapLocal(func, c, b, j);
    GrowsSelf(c);
    LaidOneMore(func, c, c, b, j);
  }

  lemma GrowsSelf(c: Cursor)
    ensures Grows(c, c)
  {}

  // ----- blocks --------------------------------------------------------------------------

  lemma BlockOpened(func: Function, c: Cursor, b: nat)
    requires Lowerable(func) && CameToBlock(func, c, b) && b < |func.blocks|
    ensures CameTo(func, Open(c, func.blocks[b].name), b, 0)
  {
    hide Mapped, Laid, ListedOnce, DefinedFirst, InRange, Grows;
    var name := func.blocks[b].name;
    var c' := Open(c, name);
    OpenGrows(c, name);
    BlockNameNew(func, c, b);
    assert Named(func, name, b + 1, |c.awaits|);
    OpenLabels(func, c, name, b, c.awaits, b + 1);
    LaidStays(func, c, c', b, 0);
    MappedAlike(func, c, c', b, 0);
  }

  lemma BlockNameNew(func: Function, c: Cursor, b: nat)
    requires Lowerable(func) && Labelled(func, c, b) && b < |func.blocks| && |c.awaits| == AwaitsTo(func, b)
    ensures forall i :: 0 <= i < |Blocks(c)| ==> Blocks(c)[i].name != func.blocks[b].name
  {
    hide ListedOnce, DefinedFirst, InRange, ResumeLabel, Blocks;
    AwaitsUpTo(func, b, |func.blocks|);
    forall i | 0 <= i < |Blocks(c)| ensures Blocks(c)[i].name != func.blocks[b].name {
      assert Named(func, Blocks(c)[i].name, b, |c.awaits|);
    }
  }

  /** The terminator, and before a return the code that completes the polled task. */
  function TermCursor(c: Cursor, term: Option<Terminator>): Cursor {
    match term
    case Some(Ret(value)) =>
      var base := |c.values|;
      var code := ReadyCode(base, MapValue(value, MapId(c.valMap)));
      Close(PushAll(c, code), Some(Ret(Some(Value(base + |code| - 1)))))
    case Some(CondBr(condition, trueTarget, falseTarget)) =>
      Close(c, Some(CondBr(MapOp(condition, MapId(c.valMap)), trueTarget, falseTarget)))
    case _ => Close(c, term)
  }

  lemma TermFields(func: Function, c: Cursor, term: Option<Terminator>, n: nat)
    requires c.isOpen && Labelled(func, c, n)
    ensures var c' := TermCursor(c, term);
            && !c'.isOpen && c'.valMap == c.valMap && c'.awaits == c.awaits && c.values <= c'.values
            && Grows(c, c') && Labelled(func, c', n)
  {
    hide Grows, Labelled, CodeAt, EndsAt, MapOp, MapId;
    if term.Some? && term.value.Ret? {
      var base := |c.values|;
      var code := ReadyCode(base, MapValue(term.value.value, MapId(c.valMap)));
      var last := Some(Ret(Some(Value(base + |code| - 1))));
      PushAllGrows(c, code, c.valMap);
      PushAllLabels(func, c, code, c.valMap, n);
      CloseGrows(PushAll(c, code), last);
      CloseLabels(func, PushAll(c, code), last, n);
      GrowsTrans(c, PushAll(c, code), TermCursor(c, term));
    } else {
      var last := TermCursor(c, term).done[|c.done|].terminator;
      CloseGrows(c, last);
      CloseLabels(func, c, last, n);
    }
  }

  lemma ReadyCodeLaid(func: Function, c: Cursor, value: Option<Operand>)
    requires c.isOpen && FirstId(func) <= |c.values|
    requires value.Some? ==> OpBelow(MapOp(value.value, MapId(c.valMap)), |c.values|)
    ensures ReadyLaid(func, TermCursor(c, Some(Ret(value))), Loc(c.name, |c.insts|), |c.values|,
      MapValue(value, MapId(c.valMap)))
  {
    hide Grows, CodeAt, EndsAt, MapOp, MapId, FirstId;
    var base := |c.values|;
    var code := ReadyCode(base, MapValue(value, MapId(c.valMap)));
    var pushed := PushAll(c, code);
    var last := Some(Ret(Some(Value(base + |code| - 1))));
    PushAllGrows(c, code, c.valMap);
    CloseGrows(pushed, last);
    CodeStays(pushed, Close(pushed, last), Loc(c.name, |c.insts|), base, code);
  }

  lemma TermIsLaid(func: Function, c: Cursor, b: nat)
    requires Lowerable(func) && b < |func.blocks| && CameTo(func, c, b, |func.blocks[b].insts|)
    ensures TermLaid(func, TermCursor(c, func.blocks[b].terminator), b)
  {
    hide ListedOnce, DefinedFirst, InRange, ResumeLabelsFresh, Labelled, Laid, Grows, ReadyLaid, Mapped, EndsAt,
      FirstId;
    var term := func.blocks[b].terminator;
    var c' := TermCursor(c, term);
    TermArgsKnown(func, c, b);
    FirstFree(func, c, b, |func.blocks[b].insts|);
    TermFields(func, c, term, b + 1);
    match term
    case Some(Ret(value)) =>
      if value.Some? { OpIsBelow(func, c, b, |func.blocks[b].insts|, value.value); }
      ReadyCodeLaid(func, c, value);
    case Some(CondBr(condition, trueTarget, falseTarget)) =>
      CloseGrows(c, Some(CondBr(MapOp(condition, MapId(c.valMap)), trueTarget, falseTarget)));
    case _ => CloseGrows(c, term);
  }

  lemma TermArgsKnown(func: Function, c: Cursor, b: nat)
    requires Lowerable(func) && b < |func.blocks| && Mapped(func, c, b, |func.blocks[b].insts|)
    ensures Known(c, TermArgs(func.blocks[b].terminator))
  {
    hide ListedBefore;
  }

  lemma ListedInBlocks(func: Function, b: nat)
    requires b < |func.blocks|
    ensures forall v :: ListedBefore(func, b + 1, 0, v) <==> ListedBefore(func, b, |func.blocks[b].insts|, v)
  {
    forall v ensures ListedBefore(func, b + 1, 0, v) <==> ListedBefore(func, b, |func.blocks[b].insts|, v) {
      if ListedBefore(func, b + 1, 0, v) {
        var b', j' :| ListedAt(func, b', j', v) && Before(b', j', b + 1, 0);
        assert Before(b', j', b, |func.blocks[b].insts|);
      }
      if ListedBefore(func, b, |func.blocks[b].insts|, v) {
        var b', j' :| ListedAt(func, b', j', v) && Before(b', j', b, |func.blocks[b].insts|);
        assert Before(b', j', b + 1, 0);
      }
    }
  }

  lemma MappedInBlocks(func: Function, c: Cursor, b: nat)
    requires b < |func.blocks| && Mapped(func, c, b, |func.blocks[b].insts|)
    ensures Mapped(func, c, b + 1, 0)
  {
    ListedInBlocks(func, b);
  }

  lemma MappedGrows(func: Function, c: Cursor, c': Cursor, b: nat, j: nat)
    requires Mapped(func, c, b, j) && c.values <= c'.values && c'.valMap == c.valMap
    ensures Mapped(func, c', b, j)
  {
    hide ListedBefore;
  }

  lemma LaidBlock(func: Function, c: Cursor, c': Cursor, b: nat)
    requires b < |func.blocks| && Grows(c, c') && Laid(func, c, b, |func.blocks[b].insts|) && TermLaid(func, c', b)
    ensures Laid(func, c', b + 1, 0)
  {
    hide InstLaid, TermLaid, Grows;
    LaidStays(func, c, c', b, |func.blocks[b].insts|);
    forall b', j' | 0 <= b' < |func.blocks| && 0 <= j' < |func.blocks[b'].insts| && Before(b', j', b + 1, 0)
      ensures InstLaid(func, c', b', j')
    {
      assert Before(b', j', b, |func.blocks[b].insts|);
    }
  }

  lemma BlockClosed(func: Function, c: Cursor, b: nat)
    requires Lowerable(func) && b < |func.blocks| && CameTo(func, c, b, |func.blocks[b].insts|)
    ensures CameToBlock(func, TermCursor(c, func.blocks[b].terminator), b + 1)
  {
    hide Lowerable, Labelled, Laid, Grows, Mapped, TermLaid, TermCursor;
    var c' := TermCursor(c, func.blocks[b].terminator);
    TermFields(func, c, func.blocks[b].terminator, b + 1);
    TermIsLaid(func, c, b);
    MappedGrows(func, c, c', b, |func.blocks[b].insts|);
    MappedInBlocks(func, c', b);
    LaidBlock(func, c, c', b);
  }

  // ----- the whole function --------------------------------------------------------------

  /** One field of the environment for each local, after the first three. */
  method BuildEnv(func: Function) returns (allocaMap: map<ValueId, nat>)
    ensures forall v :: v in allocaMap <==> IsLocal(func, v)
    ensures forall i :: 0 <= i < |Locals(func)| ==>
      Locals(func)[i] in allocaMap && allocaMap[Locals(func)[i]] == FIRST_LOCAL_FIELD + i
  {
    allocaMap := map[];
    var fields := FIRST_LOCAL_FIELD;
    for n := 0 to |func.values|
      invariant fields == FIRST_LOCAL_FIELD + |LocalsTo(func.values, n)|
      invariant forall v :: v in allocaMap <==> 0 <= v < n && func.values[v].Alloca?
      invariant forall i :: 0 <= i < |LocalsTo(func.values, n)| ==>
        LocalsTo(func.values, n)[i] in allocaMap && allocaMap[LocalsTo(func.values, n)[i]] == FIRST_LOCAL_FIELD + i
    {
      LocalsToAre(func.values, n);
      assert forall i :: 0 <= i < |LocalsTo(func.values, n)| ==>
        LocalsTo(func.values, n)[i] in LocalsTo(func.values, n);
      if func.values[n].Alloca? {
        allocaMap := allocaMap[n := fields];
        fields := fields + 1;
      }
    }
  }

  /** The environment parameter, and the address of each local in it. */
  method PreCreate(
      func: Function, allocaMap: map<ValueId, nat>) returns (values: seq<Instruction>, valMap: map<ValueId, ValueId>)
    requires forall i :: 0 <= i < |Locals(func)| ==>
      Locals(func)[i] in allocaMap && allocaMap[Locals(func)[i]] == FIRST_LOCAL_FIELD + i
    ensures values == BaseValues(func) && LocalsMapped(func, valMap)
    ensures forall v :: v in valMap <==> IsLocal(func, v)
  {
    hide LocalsTo;
    values, valMap := [Alloca], map[];
    ghost var locals := LocalsTo(func.values, 0);
    NoLocals(func.values);
    for n := 0 to |func.values|
      invariant locals == LocalsTo(func.values, n)
      invariant |values| == 1 + |locals| && values[0] == Alloca
      invariant forall i :: 1 <= i < |values| ==> values[i] == FieldPtr(Value(0), FIRST_LOCAL_FIELD + i - 1)
      invariant forall v :: v in valMap <==> 0 <= v < n && func.values[v].Alloca?
      invariant forall i :: 0 <= i < |locals| ==>
        0 <= locals[i] < n && locals[i] in valMap && valMap[locals[i]] == 1 + i
    {
      LocalsPrefix(func.values, n + 1, |func.values|);
      LocalsSnoc(func.values, n);
      if func.values[n].Alloca? {
        assert Locals(func)[|locals|] == n;
        valMap := valMap[n := |values|];
        values := values + [FieldPtr(Value(0), allocaMap[n])];
      }
      locals := LocalsTo(func.values, n + 1);
    }
    assert |BaseValues(func)| == |values|;
    assert values == BaseValues(func);
  }

  lemma NoLocals(values: seq<Instruction>)
    ensures LocalsTo(values, 0) == []
  {}

  lemma LocalsSnoc(values: seq<Instruction>, n: nat)
    requires n < |values|
    ensures LocalsTo(values, n + 1) == LocalsTo(values, n) + (if values[n].Alloca? then [n] else [])
  {}

  lemma {:induction false} LocalsPrefix(values: seq<Instruction>, n: nat, m: nat)
    requires n <= m <= |values|
    ensures LocalsTo(values, n) <= LocalsTo(values, m)
    decreases m - n
  {
    if n < m {
      LocalsPrefix(values, n, m - 1);
    }
  }

  lemma StartMapped(func: Function, c: Cursor)
    requires c.values == BaseValues(func) && LocalsMapped(func, c.valMap)
    requires forall v :: v in c.valMap <==> IsLocal(func, v)
    ensures Mapped(func, c, 0, 0)
  {
    LocalsToAre(func.values, |func.values|);
    forall v | v in c.valMap
      ensures exists i :: 0 <= i < |Locals(func)| && Locals(func)[i] == v && c.valMap[v] == 1 + i
    {
      assert v in Locals(func);
      var i :| 0 <= i < |Locals(func)| && Locals(func)[i] == v;
    }
    forall u, v | u in c.valMap && v in c.valMap && c.valMap[u] == c.valMap[v] ensures u == v {
      var i :| 0 <= i < |Locals(func)| && Locals(func)[i] == u && c.valMap[u] == 1 + i;
      var k :| 0 <= k < |Locals(func)| && Locals(func)[k] == v && c.valMap[v] == 1 + k;
    }
    forall v ensures !ListedBefore(func, 0, 0, v) {}
  }

  lemma PushAllTwice(c: Cursor, a: seq<Instruction>, b: seq<Instruction>)
    ensures PushAll(PushAll(c, a), b) == PushAll(c, a + b)
  {
    assert Ids(|c.values|, |a|) + Ids(|c.values| + |a|, |b|) == Ids(|c.values|, |a| + |b|);
  }

  lemma PushIsPushAll(c: Cursor, inst: Instruction)
    ensures Push(c, inst) == PushAll(c, [inst])
  {
    assert Ids(|c.values|, 1) == [|c.values|];
  }

  method EmitHeaderStore(c: Cursor, field: nat, value: Operand) returns (c': Cursor)
    ensures c' == PushAll(c, HeaderStore(|c.values|, field, value))
  {
    var ptr := |c.values|;
    c' := Push(c, FieldPtr(Value(0), field));
    c' := Push(c', Store(Value(ptr), value));
  }

  /** Builds a poll result and loads it as the last value. */
  method EmitPoll(c: Cursor, status: string, value: Option<Operand>) returns (c': Cursor)
    ensures c' == PushAll(c, PollCode(|c.values|, status, value))
  {
    var result := |c.values|;
    c' := Push(c, Alloca);
    var statusPtr := |c'.values|;
    c' := Push(c', FieldPtr(Value(result), 0));
    c' := Push(c', Store(Value(statusPtr), Number(status)));
    if value.Some? {
      var valuePtr := |c'.values|;
      c' := Push(c', FieldPtr(Value(result), 1));
      c' := Push(c', Store(Value(valuePtr), value.value));
    }
    c' := Push(c', Load(Value(result)));
  }

  /** The code of an await, piece by piece. */
  method EmitAwait(c: Cursor, v: ValueId, future: Operand) returns (c': Cursor)
    ensures c' == AwaitCursor(c, v, future)
  {
    hide MapOp, MapId, ToText, PushAll, PollCode;
    var k := |c.awaits| + 1;
    var base := |c.values|;
    var fut := MapOp(future, MapId(c.valMap));
    c' := EmitSuspend(c, fut, k);
    c' := Split(c', Some(Ret(Some(Value(base + 9)))), ResumeLabel(k)).(awaits := c.awaits + [v]);
    ghost var next := c';
    SuspendValues(c, fut, k);
    c' := EmitResume(c');
    c' := c'.(valMap := c.valMap[v := base + 12]);
    assert c' == PushAll(next, ResumeCode(base + 10)).(valMap := c.valMap[v := base + 12]);
  }

  lemma SuspendValues(c: Cursor, fut: Operand, k: nat)
    ensures |PushAll(c, SuspendCode(|c.values|, fut, k)).values| == |c.values| + 10
  {}

  method EmitSuspend(c: Cursor, fut: Operand, k: nat) returns (c': Cursor)
    ensures c' == PushAll(c, SuspendCode(|c.values|, fut, k))
  {
    hide PollCode, ToText;
    var base := |c.values|;
    ghost var first := HeaderStore(base, CHILD_FIELD, fut);
    ghost var second := HeaderStore(base + 2, STATE_FIELD, Number(ToText(k)));
    ghost var third := HeaderStore(base + 4, STATUS_FIELD, Number("0"));
    c' := EmitHeaderStore(c, CHILD_FIELD, fut);
    c' := EmitHeaderStore(c', STATE_FIELD, Number(ToText(k)));
    PushAllTwice(c, first, second);
    c' := EmitHeaderStore(c', STATUS_FIELD, Number("0"));
    PushAllTwice(c, first + second, third);
    c' := EmitPoll(c', "0", None);
    PushAllTwice(c, first + second + third, PollCode(base + 6, "0", None));
  }

  method EmitResume(c: Cursor) returns (c': Cursor)
    ensures c' == PushAll(c, ResumeCode(|c.values|))
  {
    var child := |c.values|;
    c' := Push(c, FieldPtr(Value(0), CHILD_FIELD));
    var loaded := |c'.values|;
    c' := Push(c', Load(Value(child)));
    c' := Push(c', Await(Value(loaded)));
    var nulled := |c'.values|;
    c' := Push(c', Null);
    c' := Push(c', Store(Value(child), Value(nulled)));
  }

  method EmitReady(c: Cursor, value: Option<Operand>) returns (c': Cursor)
    ensures c' == PushAll(c, ReadyCode(|c.values|, value)) && |c'.values| > |c.values|
  {
    hide PollCode, ToText;
    var base := |c.values|;
    ghost var first := HeaderStore(base, STATE_FIELD, Number(ToText(FUTURE_STATE_COMPLETED)));
    ghost var second := HeaderStore(base + 2, STATUS_FIELD, Number("1"));
    c' := EmitHeaderStore(c, STATE_FIELD, Number(ToText(FUTURE_STATE_COMPLETED)));
    c' := EmitHeaderStore(c', STATUS_FIELD, Number("1"));
    PushAllTwice(c, first, second);
    c' := EmitPoll(c', "1", value);
    PushAllTwice(c, first + second, PollCode(base + 4, "1", value));
  }

  /** A terminator; a return first completes the polled task. */
  method EmitTerm(c: Cursor, term: Option<Terminator>) returns (c': Cursor)
    ensures c' == TermCursor(c, term)
  {
    hide MapOp, MapId, ReadyCode;
    match term
    case Some(Ret(value)) =>
      c' := EmitReady(c, MapValue(value, MapId(c.valMap)));
      c' := Close(c', Some(Ret(Some(Value(|c'.values| - 1)))));
    case Some(CondBr(condition, trueTarget, falseTarget)) =>
      c' := Close(c, Some(CondBr(MapOp(condition, MapId(c.valMap)), trueTarget, falseTarget)));
    case _ => c' := Close(c, term);
  }

  method TranslateInst(func: Function, c: Cursor, b: nat, j: nat) returns (c': Cursor)
    requires Lowerable(func) && b < |func.blocks| && j < |func.blocks[b].insts| && CameTo(func, c, b, j)
    ensures CameTo(func, c', b, j + 1)
  {
    hide CameTo, ListedOnce, DefinedFirst, ResumeLabelsFresh, DistinctLabels, PushAll, AwaitCursor;
    var v := func.blocks[b].insts[j];
    assert v in func.blocks[b].insts;
    var inst := func.values[v];
    if inst.Alloca? {
      LocalLaid(func, c, b, j);
      return c;
    }
    if inst.Await? {
      c' := EmitAwait(c, v, inst.future);
      AwaitInstLaid(func, c, b, j);
      return;
    }
    c' := EmitGeneral(c, v, inst);
    GeneralLaid(func, c, b, j);
  }

  method EmitGeneral(c: Cursor, v: ValueId, inst: Instruction) returns (c': Cursor)
    ensures c' == GeneralCursor(c, v, inst)
  {
    hide MapInst, MapId;
    var id := |c.values|;
    c' := Push(c, MapInst(inst, MapId(c.valMap)));
    c' := c'.(valMap := c.valMap[v := id]);
    assert c'.insts == c.insts + Ids(id, 1);
  }

  method TranslateBlock(func: Function, c: Cursor, b: nat) returns (c': Cursor)
    requires Lowerable(func) && CameToBlock(func, c, b) && b < |func.blocks|
    ensures CameToBlock(func, c', b + 1)
  {
    hide CameTo, CameToBlock, Lowerable, TermCursor;
    var block := func.blocks[b];
    c' := Open(c, block.name);
    BlockOpened(func, c, b);
    for j := 0 to |block.insts|
      invariant CameTo(func, c', b, j)
    {
      c' := TranslateInst(func, c', b, j);
    }
    BlockClosed(func, c', b);
    c' := EmitTerm(c', block.terminator);
  }

  method TranslateBlocks(func: Function) returns (c: Cursor)
    requires Lowerable(func)
    ensures CameToBlock(func, c, |func.blocks|)
  {
    var allocaMap := BuildEnv(func);
    var values, valMap := PreCreate(func, allocaMap);
    c := Cursor(values, valMap, [], false, "", [], []);
    StartMapped(func, c);
    assert CameToBlock(func, c, 0);
    for b := 0 to |func.blocks|
      invariant CameToBlock(func, c, b)
    {
      c := TranslateBlock(func, c, b);
    }
  }
}
