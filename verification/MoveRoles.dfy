/** What each instruction does with its operands, and that the move analysis follows it: handed-over
    places are gone, stored-to places are live, read places are checked, and nothing else changes. */
module MoveRoles {
  import opened Wrappers
  import opened Mvir
  import opened Shapes
  import opened Places
  import opened MoveState
  import opened MoveTransfer

  // ----- the roles of operands -----------------------------------------------------------

  /** The operand's value is given away: assigned, stored, awaited, passed to a call of any kind or
      to a variant, or captured by move. */
  ghost predicate HandsOver(inst: Instruction, op: Operand) {
    match inst
    case Assign(value) => op == value
    case Store(_, value) => op == value
    case Await(future) => op == future
    case CallDirect(_, args) => op in args
    case CallIndirect(_, args) => op in args
    case CallClosure(_, args) => op in args
    case CallVirt(_, _, args) => op in args
    case Variant(_, args) => op in args
    case MakeClosure(_, _, captures) => exists c :: c in captures && c.mode.MoveCapture? && op == Value(c.source)
    case _ => false
  }

  /** The operand is looked at: all are, but addresses that are stored to, projected or converted,
      what is freed, initialized or dropped, and the environment of a closure. */
  ghost predicate Reads(inst: Instruction, op: Operand) {
    match inst
    case Store(_, value) => op == value
    case MakeClosure(_, _, captures) => op in Captured(captures)
    case FieldPtr(_, _) => false
    case Extract(_, _, _) => false
    case PtrOffset(_, _) => false
    case Cast(_) => false
    case HeapFree(_) => false
    case MarkInit(_) => false
    case Drop(_, _) => false
    case _ => op in Operands(inst)
  }

  /** The operand's place gets a value. */
  ghost predicate Fills(inst: Instruction, op: Operand) {
    match inst
    case Store(ptr, _) => op == ptr
    case MarkInit(value) => op == value
    case _ => false
  }

  /** The operand's place is freed or dropped. */
  ghost predicate Drops(func: Function, inst: Instruction, op: Operand) {
    match inst
    case HeapFree(value) => op == value
    case Drop(value, _) => op == value && !IsHeapPointerDrop(func, value)
    case _ => false
  }

  predicate Moves(env: Env, op: Operand, p: Place) {
    op.Value? && op.id !in env.copyable && PlaceOf(env, op) == Some(p)
  }

  ghost predicate IsGiven(env: Env, inst: Instruction, p: Place) {
    exists op :: HandsOver(inst, op) && Moves(env, op, p)
  }

  ghost predicate IsRead(env: Env, inst: Instruction, p: Place) {
    exists op :: Reads(inst, op) && PlaceOf(env, op) == Some(p)
  }

  ghost predicate IsFilled(env: Env, inst: Instruction, p: Place) {
    exists op :: Fills(inst, op) && PlaceOf(env, op) == Some(p)
  }

  ghost predicate IsDropped(env: Env, inst: Instruction, p: Place) {
    exists op :: Drops(env.func, inst, op) && PlaceOf(env, op) == Some(p)
  }

  /** The field an extraction takes out. */
  predicate IsTaken(env: Env, inst: Instruction, p: Place) {
    && inst.Extract? && PlaceOf(env, inst.value).Some?
    && p == Projected(PlaceOf(env, inst.value).value, Field(inst.fieldIdx))
  }

  predicate IsSlot(inst: Instruction) {
    inst.Alloca? || inst.HeapAlloc?
  }

  // ----- the actions follow the roles ----------------------------------------------------

  /** Reads and moves come first; at most the last action does anything else to the table. */
  predicate Ordered(acts: seq<Action>) {
    forall k :: 0 <= k < |acts| - 1 ==> acts[k].Check? || acts[k].MarkMoved? || acts[k].CheckDrop?
  }

  ghost predicate ActsAs(env: Env, id: ValueId, inst: Instruction, acts: seq<Action>) {
    && (forall p :: MarkMoved(p) in acts <==> IsGiven(env, inst, p))
    && (forall p :: Check(p) in acts <==> IsRead(env, inst, p))
    && (forall p :: MarkLive(p) in acts <==> IsFilled(env, inst, p))
    && (forall p :: MarkDropped(p) in acts <==> IsDropped(env, inst, p))
    && (forall p :: CheckDrop(p) in acts <==> inst.Drop? && IsDropped(env, inst, p))
    && (forall p :: CheckField(p) in acts <==> IsTaken(env, inst, p))
    && (forall p, v :: Allocate(p, v) in acts <==>
          IsSlot(inst) && p == Place(id, []) && v == if id < env.func.argCount then Live else Uninitialized)
    && Ordered(acts)
  }

  lemma OperandActs(env: Env, op: Operand)
    ensures forall act :: act in CheckOf(env, op) <==> act.Check? && PlaceOf(env, op) == Some(act.place)
    ensures forall act :: act in MovedOf(env, op) <==> act.MarkMoved? && Moves(env, op, act.place)
    ensures forall act :: act in LiveOf(env, op) <==> act.MarkLive? && PlaceOf(env, op) == Some(act.place)
    ensures forall act :: act in DroppedOf(env, op) <==> act.MarkDropped? && PlaceOf(env, op) == Some(act.place)
    ensures forall act :: act in DropOf(env, op) <==> act.CheckDrop? && PlaceOf(env, op) == Some(act.place)
    ensures |LiveOf(env, op)| <= 1 && |DroppedOf(env, op)| <= 1
  {}

  ghost predicate SomeAt(env: Env, ops: seq<Operand>, p: Place) {
    exists k :: 0 <= k < |ops| && PlaceOf(env, ops[k]) == Some(p)
  }

  ghost predicate SomeMoves(env: Env, ops: seq<Operand>, p: Place) {
    exists k :: 0 <= k < |ops| && Moves(env, ops[k], p)
  }

  lemma {:induction false} ArgsActs(env: Env, args: seq<Operand>)
    ensures forall act :: act in ArgsOf(env, args) <==>
      (act.Check? && SomeAt(env, args, act.place)) || (act.MarkMoved? && SomeMoves(env, args, act.place))
    ensures forall act :: act in ChecksOf(env, args) <==> act.Check? && SomeAt(env, args, act.place)
    decreases |args|
  {
    hide CheckOf, MovedOf, PlaceOf, Moves;
    if args != [] {
      var init, last := args[..|args| - 1], args[|args| - 1];
      ArgsActs(env, init);
      OperandActs(env, last);
      forall p ensures SomeAt(env, args, p) <==> SomeAt(env, init, p) || PlaceOf(env, last) == Some(p) {
        if k :| 0 <= k < |init| && PlaceOf(env, init[k]) == Some(p) { assert args[k] == init[k]; }
        if PlaceOf(env, last) == Some(p) { assert args[|args| - 1] == last; }
      }
      forall p ensures SomeMoves(env, args, p) <==> SomeMoves(env, init, p) || Moves(env, last, p) {
        if k :| 0 <= k < |init| && Moves(env, init[k], p) { assert args[k] == init[k]; }
        if Moves(env, last, p) { assert args[|args| - 1] == last; }
      }
    }
  }

  ghost predicate SomeCapture(env: Env, cs: seq<Capture>, p: Place) {
    exists k :: 0 <= k < |cs| && PlaceOf(env, Value(cs[k].source)) == Some(p)
  }

  ghost predicate SomeMoveCapture(env: Env, cs: seq<Capture>, p: Place) {
    exists k :: 0 <= k < |cs| && cs[k].mode.MoveCapture? && Moves(env, Value(cs[k].source), p)
  }

  lemma {:induction false} CapturesActs(env: Env, cs: seq<Capture>)
    ensures forall act :: act in CapturesOf(env, cs) <==>
      (act.Check? && SomeCapture(env, cs, act.place)) || (act.MarkMoved? && SomeMoveCapture(env, cs, act.place))
    decreases |cs|
  {
    hide CheckOf, MovedOf, PlaceOf, Moves;
    if cs != [] {
      var init, last := cs[..|cs| - 1], cs[|cs| - 1];
      var op := Value(last.source);
      CapturesActs(env, init);
      OperandActs(env, op);
      forall p ensures SomeCapture(env, cs, p) <==> SomeCapture(env, init, p) || PlaceOf(env, op) == Some(p) {
        if k :| 0 <= k < |init| && PlaceOf(env, Value(init[k].source)) == Some(p) { assert cs[k] == init[k]; }
        if PlaceOf(env, op) == Some(p) { assert cs[|cs| - 1] == last; }
      }
      forall p ensures SomeMoveCapture(env, cs, p) <==>
        SomeMoveCapture(env, init, p) || (last.mode.MoveCapture? && Moves(env, op, p))
      {
        if k :| 0 <= k < |init| && init[k].mode.MoveCapture? && Moves(env, Value(init[k].source), p) {
          assert cs[k] == init[k];
        }
        if last.mode.MoveCapture? && Moves(env, op, p) { assert cs[|cs| - 1] == last; }
      }
    }
  }

  lemma {:induction false} InCaptured(cs: seq<Capture>, op: Operand)
    ensures op in Captured(cs) <==> exists k :: 0 <= k < |cs| && op == Value(cs[k].source)
  {
    if cs != [] {
      InCaptured(cs[1..], op);
      if k :| 0 <= k < |cs| && op == Value(cs[k].source) { assert k > 0 ==> op == Value(cs[1..][k - 1].source); }
      if k :| 0 <= k < |cs[1..]| && op == Value(cs[1..][k].source) { assert op == Value(cs[k + 1].source); }
    }
  }

  /** Calls of all kinds and variants. */
  function ArgList(inst: Instruction): Option<seq<Operand>> {
    match inst
    case CallDirect(_, args) => Some(args)
    case CallIndirect(_, args) => Some(args)
    case CallClosure(_, args) => Some(args)
    case CallVirt(_, _, args) => Some(args)
    case Variant(_, args) => Some(args)
    case _ => None
  }

  lemma GivenArgs(env: Env, inst: Instruction, p: Place)
    requires ArgList(inst).Some?
    ensures IsGiven(env, inst, p) <==> SomeMoves(env, ArgList(inst).value, p)
  {
    hide Moves;
    var args := ArgList(inst).value;
    if IsGiven(env, inst, p) {
      var op :| HandsOver(inst, op) && Moves(env, op, p);
      var k :| 0 <= k < |args| && args[k] == op;
    }
    if k :| 0 <= k < |args| && Moves(env, args[k], p) { assert HandsOver(inst, args[k]); }
  }

  lemma ReadOperands(env: Env, inst: Instruction, p: Place)
    requires forall op :: Reads(inst, op) <==> op in Operands(inst)
    ensures IsRead(env, inst, p) <==> SomeAt(env, Operands(inst), p)
  {
    hide PlaceOf, Reads;
    var ops := Operands(inst);
    if IsRead(env, inst, p) {
      var op :| Reads(inst, op) && PlaceOf(env, op) == Some(p);
      var k :| 0 <= k < |ops| && ops[k] == op;
    }
    if k :| 0 <= k < |ops| && PlaceOf(env, ops[k]) == Some(p) { assert Reads(inst, ops[k]); }
  }

  /** The first operand, and one of the others. */
  lemma AtHead(env: Env, op: Operand, ops: seq<Operand>, p: Place)
    ensures SomeAt(env, [op] + ops, p) <==> PlaceOf(env, op) == Some(p) || SomeAt(env, ops, p)
  {
    hide PlaceOf;
    var all := [op] + ops;
    if PlaceOf(env, op) == Some(p) { assert all[0] == op; }
    if k :| 0 <= k < |ops| && PlaceOf(env, ops[k]) == Some(p) { assert all[k + 1] == ops[k]; }
    if k :| 0 <= k < |all| && PlaceOf(env, all[k]) == Some(p) { assert k > 0 ==> all[k] == ops[k - 1]; }
  }

  lemma NoOther(env: Env, id: ValueId, inst: Instruction, acts: seq<Action>)
    requires !inst.Store? && !inst.MarkInit? && !inst.HeapFree? && !inst.Drop? && !inst.Extract? && !IsSlot(inst)
    requires forall act :: act in acts ==> act.Check? || act.MarkMoved?
    requires forall p :: MarkMoved(p) in acts <==> IsGiven(env, inst, p)
    requires forall p :: Check(p) in acts <==> IsRead(env, inst, p)
    ensures ActsAs(env, id, inst, acts)
  {
    hide IsGiven, IsRead;
    forall k | 0 <= k < |acts| ensures acts[k].Check? || acts[k].MarkMoved? { assert acts[k] in acts; }
  }

  lemma ListActs(env: Env, id: ValueId, inst: Instruction)
    requires ArgList(inst).Some?
    ensures ActsAs(env, id, inst, ActionsOf(env, id, inst))
  {
    hide ArgsOf, CheckOf, PlaceOf, IsGiven, IsRead, SomeMoves, SomeAt;
    var args, acts := ArgList(inst).value, ActionsOf(env, id, inst);
    ArgsActs(env, args);
    forall p ensures IsGiven(env, inst, p) <==> SomeMoves(env, args, p) { GivenArgs(env, inst, p); }
    forall p ensures IsRead(env, inst, p) <==> SomeAt(env, Operands(inst), p) { ReadOperands(env, inst, p); }
    if inst.CallDirect? || inst.Variant? {
      assert acts == ArgsOf(env, args) && Operands(inst) == args;
    } else {
      var first := Operands(inst)[0];
      OperandActs(env, first);
      forall p ensures SomeAt(env, [first] + args, p) <==> PlaceOf(env, first) == Some(p) || SomeAt(env, args, p) {
        AtHead(env, first, args, p);
      }
      assert acts == CheckOf(env, first) + ArgsOf(env, args) && Operands(inst) == [first] + args;
    }
    NoOther(env, id, inst, acts);
  }

  lemma ClosureActs(env: Env, id: ValueId, inst: Instruction)
    requires inst.MakeClosure?
    ensures ActsAs(env, id, inst, ActionsOf(env, id, inst))
  {
    hide CapturesOf, PlaceOf, Moves, Captured;
    var cs := inst.captures;
    CapturesActs(env, cs);
    forall p ensures IsGiven(env, inst, p) <==> SomeMoveCapture(env, cs, p) {
      if IsGiven(env, inst, p) {
        var op :| HandsOver(inst, op) && Moves(env, op, p);
        var c :| c in cs && c.mode.MoveCapture? && op == Value(c.source);
        var k :| 0 <= k < |cs| && cs[k] == c;
      }
      if k :| 0 <= k < |cs| && cs[k].mode.MoveCapture? && Moves(env, Value(cs[k].source), p) {
        assert cs[k] in cs && HandsOver(inst, Value(cs[k].source));
      }
    }
    forall p ensures IsRead(env, inst, p) <==> SomeCapture(env, cs, p) {
      if IsRead(env, inst, p) {
        var op :| Reads(inst, op) && PlaceOf(env, op) == Some(p);
        InCaptured(cs, op);
      }
      if k :| 0 <= k < |cs| && PlaceOf(env, Value(cs[k].source)) == Some(p) {
        InCaptured(cs, Value(cs[k].source));
        assert Reads(inst, Value(cs[k].source));
      }
    }
    NoOther(env, id, inst, ActionsOf(env, id, inst));
  }

  predicate OnlyReads(inst: Instruction) {
    || inst.Load? || inst.MakeTraitObject? || inst.MakeSlice? || inst.DropVirt? || inst.Borrow? || inst.Binary?
    || inst.BoundsCheck? || inst.Tag?
  }

  lemma OneOrTwoAt(env: Env, p: Place)
    ensures forall a :: SomeAt(env, [a], p) <==> PlaceOf(env, a) == Some(p)
    ensures forall a, b :: SomeAt(env, [a, b], p) <==> PlaceOf(env, a) == Some(p) || PlaceOf(env, b) == Some(p)
    ensures !SomeAt(env, [], p)
  {
    hide PlaceOf;
    forall a ensures SomeAt(env, [a], p) <==> PlaceOf(env, a) == Some(p) {
      AtHead(env, a, [], p);
      assert [a] == [a] + [];
    }
    forall a, b ensures SomeAt(env, [a, b], p) <==> PlaceOf(env, a) == Some(p) || PlaceOf(env, b) == Some(p) {
      AtHead(env, b, [], p);
      AtHead(env, a, [b], p);
      assert [a, b] == [a] + [b] && [b] == [b] + [];
    }
  }

  lemma ReadActs(env: Env, id: ValueId, inst: Instruction)
    requires OnlyReads(inst)
    ensures ActsAs(env, id, inst, ActionsOf(env, id, inst))
  {
    hide CheckOf, PlaceOf, SomeAt, IsRead;
    forall op { OperandActs(env, op); }
    forall p ensures IsRead(env, inst, p) <==> SomeAt(env, Operands(inst), p) {
      ReadOperands(env, inst, p);
    }
    forall p { OneOrTwoAt(env, p); }
    NoOther(env, id, inst, ActionsOf(env, id, inst));
  }

  lemma PlainActs(env: Env, id: ValueId, inst: Instruction)
    requires inst.Assign? || inst.Await? || inst.CallIntrinsic?
    ensures ActsAs(env, id, inst, ActionsOf(env, id, inst))
  {
    hide CheckOf, MovedOf, ChecksOf, PlaceOf, Moves;
    forall op { OperandActs(env, op); }
    if inst.CallIntrinsic? {
      ArgsActs(env, inst.args);
      forall p ensures IsRead(env, inst, p) <==> SomeAt(env, inst.args, p) { ReadOperands(env, inst, p); }
    } else {
      var op := Operands(inst)[0];
      assert HandsOver(inst, op) && Reads(inst, op);
    }
    NoOther(env, id, inst, ActionsOf(env, id, inst));
  }

  lemma StoreActs(env: Env, id: ValueId, inst: Instruction)
    requires inst.Store?
    ensures ActsAs(env, id, inst, ActionsOf(env, id, inst))
  {
    hide CheckOf, MovedOf, LiveOf, PlaceOf, Moves;
    OperandActs(env, inst.value);
    OperandActs(env, inst.ptr);
    assert HandsOver(inst, inst.value) && Reads(inst, inst.value) && Fills(inst, inst.ptr);
  }

  lemma FreeActs(env: Env, id: ValueId, inst: Instruction)
    requires inst.HeapFree? || inst.Drop?
    ensures ActsAs(env, id, inst, ActionsOf(env, id, inst))
  {
    hide DropOf, DroppedOf, PlaceOf, IsHeapPointerDrop;
    OperandActs(env, inst.value);
    assert Drops(env.func, inst, inst.value) <==> inst.HeapFree? || !IsHeapPointerDrop(env.func, inst.value);
  }

  lemma SlotActs(env: Env, id: ValueId, inst: Instruction)
    requires inst.MarkInit? || inst.Extract? || IsSlot(inst)
    ensures ActsAs(env, id, inst, ActionsOf(env, id, inst))
  {
    hide LiveOf, PlaceOf;
    if inst.MarkInit? {
      OperandActs(env, inst.value);
      assert Fills(inst, inst.value);
    }
  }

  lemma NothingActs(env: Env, id: ValueId, inst: Instruction)
    requires Operands(inst) == [] || inst.FieldPtr? || inst.PtrOffset? || inst.Cast?
    requires ArgList(inst).None? && !inst.MakeClosure? && !inst.CallIntrinsic? && !IsSlot(inst)
    ensures ActsAs(env, id, inst, ActionsOf(env, id, inst))
  {
    assert ActionsOf(env, id, inst) == [];
  }

  /** What each instruction does to the table, in terms of the roles of its operands. */
  lemma ActionsFollowRoles(env: Env, id: ValueId)
    requires id < |env.func.values|
    ensures ActsAs(env, id, env.func.values[id], InstActions(env, id))
  {
    hide ActsAs, ActionsOf;
    var inst := env.func.values[id];
    if ArgList(inst).Some? { ListActs(env, id, inst); }
    else if inst.MakeClosure? { ClosureActs(env, id, inst); }
    else if OnlyReads(inst) { ReadActs(env, id, inst); }
    else if inst.Assign? || inst.Await? || inst.CallIntrinsic? { PlainActs(env, id, inst); }
    else if inst.Store? { StoreActs(env, id, inst); }
    else if inst.HeapFree? || inst.Drop? { FreeActs(env, id, inst); }
    else if inst.MarkInit? || inst.Extract? || IsSlot(inst) { SlotActs(env, id, inst); }
    else { NothingActs(env, id, inst); }
  }
}
