/** Polling the lowered function until it is ready does what the function did. */
module AsyncSimulation {
  import opened Wrappers
  import opened Mvir
  import opened Decimal
  import opened AsyncMachine
  import opened AsyncLowering

  // ----- running straight-line code ------------------------------------------------------

  type Layout = map<nat, ValueId>

  /** Executes `code`, whose first instruction is value `base`. */
  function ExecCode<P, W>(
      sem: Sem<P, W>, layout: Layout, f: Frame<P>, w: W, base: nat, code: seq<Instruction>): Option<(Frame<P>, W)>
    decreases |code|
  {
    if code == [] then Some((f, w))
    else match Exec(sem, layout, f, w, base, code[0])
      case Some((f', w')) => ExecCode(sem, layout, f', w', base + 1, code[1..])
      case None => None
  }

  lemma {:induction false} ExecConcat<P, W>(
      sem: Sem<P, W>, layout: Layout, f: Frame<P>, w: W, base: nat, a: seq<Instruction>, b: seq<Instruction>)
    ensures ExecCode(sem, layout, f, w, base, a + b)
      == match ExecCode(sem, layout, f, w, base, a)
         case Some((f', w')) => ExecCode(sem, layout, f', w', base + |a|, b)
         case None => None
    decreases |a|
  {
    hide Exec;
    if a == [] {
      assert a + b == b;
    } else {
      assert (a + b)[1..] == a[1..] + b;
      match Exec(sem, layout, f, w, base, a[0]) {
        case Some((f', w')) => ExecConcat(sem, layout, f', w', base + 1, a[1..], b);
        case None =>
      }
    }
  }

  /** In `res` the code stands at the given block and position. */
  ghost predicate Stands(res: Function, name: Label, pos: nat, base: nat, code: seq<Instruction>) {
    && FindBlock(res.blocks, name).Some? && FindBlock(res.blocks, name).value < |res.blocks|
    && CodeIn(res.values, res.blocks[FindBlock(res.blocks, name).value], pos, base, code)
  }

  /** In `res` a block ends at the given position. */
  ghost predicate Ends(res: Function, name: Label, pos: nat, term: Option<Terminator>) {
    && FindBlock(res.blocks, name).Some? && FindBlock(res.blocks, name).value < |res.blocks|
    && |res.blocks[FindBlock(res.blocks, name).value].insts| == pos
    && res.blocks[FindBlock(res.blocks, name).value].terminator == term
  }

  lemma StandsTail(res: Function, name: Label, pos: nat, base: nat, code: seq<Instruction>)
    requires Stands(res, name, pos, base, code) && code != []
    ensures Stands(res, name, pos + 1, base + 1, code[1..])
  {
    CodeTail(res.values, res.blocks[FindBlock(res.blocks, name).value], pos, base, code);
  }

  lemma CodeTail(values: seq<Instruction>, block: BasicBlock, pos: nat, base: nat, code: seq<Instruction>)
    requires CodeIn(values, block, pos, base, code) && code != []
    ensures CodeIn(values, block, pos + 1, base + 1, code[1..])
  {
    assert code[1..] == values[base..base + |code|][1..] == values[base + 1..base + |code|];
  }

  lemma AdvanceOne<P, W>(
      res: Function, sem: Sem<P, W>, layout: Layout, name: Label, pos: nat, f: Frame<P>, w: W, base: nat,
      code: seq<Instruction>)
    requires Stands(res, name, pos, base, code) && code != []
    ensures match Exec(sem, layout, f, w, base, code[0])
            case Some((f', w')) => Advance(res, sem, layout, Running(name, pos, f, w)) == Running(name, pos + 1, f', w')
            case None => true
  {
    hide Exec;
    var block := res.blocks[FindBlock(res.blocks, name).value];
    assert block.insts[pos] == base && res.values[base] == res.values[base..base + |code|][0] == code[0];
  }

  lemma {:induction false} RunCode<P, W>(
      res: Function, sem: Sem<P, W>, layout: Layout, name: Label, pos: nat, f: Frame<P>, w: W, base: nat,
      code: seq<Instruction>)
    requires Stands(res, name, pos, base, code) && ExecCode(sem, layout, f, w, base, code).Some?
    ensures var r := ExecCode(sem, layout, f, w, base, code).value;
            Reaches(res, sem, layout, Running(name, pos, f, w), Running(name, pos + |code|, r.0, r.1))
    decreases |code|
  {
    hide Exec, Stands, Advance, Reaches;
    if code == [] {
      ReachesSelf(res, sem, layout, Running(name, pos, f, w));
    } else {
      AdvanceOne(res, sem, layout, name, pos, f, w, base, code);
      var next := Exec(sem, layout, f, w, base, code[0]).value;
      ReachesStep(res, sem, layout, Running(name, pos, f, w), Running(name, pos + 1, next.0, next.1));
      StandsTail(res, name, pos, base, code);
      RunCode(res, sem, layout, name, pos + 1, next.0, next.1, base + 1, code[1..]);
      var r := ExecCode(sem, layout, f, w, base, code).value;
      ReachesTrans(res, sem, layout, Running(name, pos, f, w), Running(name, pos + 1, next.0, next.1),
        Running(name, pos + |code|, r.0, r.1));
    }
  }

  lemma RunEnd<P, W>(
      res: Function, sem: Sem<P, W>, layout: Layout, name: Label, pos: nat, f: Frame<P>, w: W, term: Option<Terminator>)
    requires Ends(res, name, pos, term)
    ensures Reaches(res, sem, layout, Running(name, pos, f, w), ExecJump(sem, f, w, term))
  {
    hide Exec, ExecJump;
    ReachesStep(res, sem, layout, Running(name, pos, f, w), ExecJump(sem, f, w, term));
  }

  // ----- what the made-up code does ------------------------------------------------------

  /** Storing a number or a program value in the environment's header. */
  lemma HeaderStoreRuns<P, W>(sem: Sem<P, W>, layout: Layout, f: Frame<P>, w: W, base: nat, field: nat, value: Operand)
    requires Reg(f, 0) == Some(EnvPtr) && base > 0 && field < 3
    requires if field == CHILD_FIELD then ValueOf(sem, f, value).Some?
      && ValueOf(sem, f, value).value.Prog? else value.Number?
    requires value.Value? ==> value.id < base
    ensures var h := f.header;
            var h' := if field == STATE_FIELD then h.(state := ParseInt(value.text))
                      else if field == STATUS_FIELD then h.(status := ParseInt(value.text))
                      else h.(child := ValueOf(sem, f, value).value.p);
            ExecCode(sem, layout, f, w, base, HeaderStore(base, field, value))
              == Some((Set(f, base, HeaderPtr(field)).(header := h'), w))
  {
    hide ParseInt;
    var code := HeaderStore(base, field, value);
    var f1 := Set(f, base, HeaderPtr(field));
    assert Exec(sem, layout, f, w, base, code[0]) == Some((f1, w));
    assert ValueOf(sem, f1, value) == ValueOf(sem, f, value);
    StoreRuns(sem, layout, f1, w, base + 1, base, field, value);
    OneRuns(sem, layout, f1, w, base + 1, code[1]);
    assert code[1..] == [code[1]];
  }

  lemma OneRuns<P, W>(sem: Sem<P, W>, layout: Layout, f: Frame<P>, w: W, id: nat, inst: Instruction)
    ensures ExecCode(sem, layout, f, w, id, [inst]) == Exec(sem, layout, f, w, id, inst)
  {
    hide Exec;
    assert [inst][1..] == [];
  }

  lemma StoreRuns<P, W>(
      sem: Sem<P, W>, layout: Layout, f: Frame<P>, w: W, id: nat, ptr: ValueId, field: nat, value: Operand)
    requires Reg(f, ptr) == Some(HeaderPtr(field))
    ensures Exec(sem, layout, f, w, id, Store(Value(ptr), value))
      == match StoreHeader(sem, f, field, value)
         case Some(f') => Some((f', w))
         case None => None
  {
    hide ParseInt, StoreHeader, StoreScratch, ExecProg;
    assert Args(Store(Value(ptr), value))[0] == ptr;
  }

  lemma SmallNumbers()
    ensures ParseInt("0") == 0 && ParseInt("1") == 1 && ToText(0) == "0"
  {
    assert "0"[..0] == [] && "1"[..0] == [];
  }

  /** Marking a field of the poll result that is being built. */
  lemma ScratchStoreRuns<P, W>(
      sem: Sem<P, W>, layout: Layout, f: Frame<P>, w: W, base: nat, slot: ValueId, i: nat, value: Operand)
    requires Reg(f, slot) == Some(ScratchPtr(slot)) && slot in f.scratch && slot < base && i < 2
    requires if i == 0 then value.Number? else ValueOf(sem, f, value).Some? && ValueOf(sem, f, value).value.Prog?
    requires value.Value? ==> value.id < base
    ensures var cell := if i == 0 then f.scratch[slot].(status := Some(ParseInt(value.text)))
                        else f.scratch[slot].(value := Some(ValueOf(sem, f, value).value.p));
            ExecCode(sem, layout, f, w, base, [FieldPtr(Value(slot), i), Store(Value(base), value)])
              == Some((Set(f, base, ScratchField(slot, i)).(scratch := f.scratch[slot := cell]), w))
  {
    hide ParseInt, ExecProg;
    var code := [FieldPtr(Value(slot), i), Store(Value(base), value)];
    var f1 := Set(f, base, ScratchField(slot, i));
    assert Args(code[0])[0] == slot && Args(code[1])[0] == base;
    assert Exec(sem, layout, f, w, base, code[0]) == Some((f1, w));
    assert ValueOf(sem, f1, value) == ValueOf(sem, f, value);
    OneRuns(sem, layout, f1, w, base + 1, code[1]);
    assert code[1..] == [code[1]];
  }

  /** The poll result that a value stands for. */
  function PollValue<P, W>(sem: Sem<P, W>, f: Frame<P>, value: Option<Operand>): Option<P> {
    match value
    case Some(op) =>
      (match ValueOf(sem, f, op)
       case Some(Prog(p)) => Some(p)
       case _ => None)
    case None => None
  }

  ghost predicate ValueReady<P, W>(sem: Sem<P, W>, f: Frame<P>, base: nat, value: Option<Operand>) {
    value.Some? ==>
      && ValueOf(sem, f, value.value).Some? && ValueOf(sem, f, value.value).value.Prog?
      && (value.value.Value? ==> value.value.id < base)
  }

  /** Building a poll result leaves the header alone and the result in the last value. */
  lemma PollRuns<P, W>(
      sem: Sem<P, W>, layout: Layout, f: Frame<P>, w: W, base: nat, status: string, value: Option<Operand>)
    requires base > 0 && ValueReady(sem, f, base, value)
    ensures var code := PollCode(base, status, value);
            var r := ExecCode(sem, layout, f, w, base, code);
            && r.Some? && r.value.1 == w && r.value.0.header == f.header
            && Reg(r.value.0, base + |code| - 1) == Some(Poll(Some(ParseInt(status)), PollValue(sem, f, value)))
  {
    hide ParseInt, Exec, ExecCode;
    PollHeadRuns(sem, layout, f, w, base, status);
    var head := PollHead(base, status);
    var f2 := ExecCode(sem, layout, f, w, base, head).value.0;
    match value {
      case Some(op) =>
        var setValue := [FieldPtr(Value(base), 1), Store(Value(base + 3), op)];
        assert ValueOf(sem, f2, op) == ValueOf(sem, f, op);
        ScratchStoreRuns(sem, layout, f2, w, base + 3, base, 1, op);
        var f3 := ExecCode(sem, layout, f2, w, base + 3, setValue).value.0;
        ExecConcat(sem, layout, f, w, base, head, setValue);
        ResultLoads(sem, layout, f3, w, base + 5, base);
        ExecConcat(sem, layout, f, w, base, head + setValue, [Load(Value(base))]);
        assert PollCode(base, status, value) == head + setValue + [Load(Value(base))];
      case None =>
        ResultLoads(sem, layout, f2, w, base + 3, base);
        ExecConcat(sem, layout, f, w, base, head, [Load(Value(base))]);
        assert PollCode(base, status, value) == head + [Load(Value(base))];
    }
  }

  function PollHead(base: nat, status: string): seq<Instruction> {
    [Alloca, FieldPtr(Value(base), 0), Store(Value(base + 1), Number(status))]
  }

  lemma PollHeadRuns<P, W>(sem: Sem<P, W>, layout: Layout, f: Frame<P>, w: W, base: nat, status: string)
    requires base > 0
    ensures ExecCode(sem, layout, f, w, base, PollHead(base, status))
      == Some((f.(regs := f.regs[base := ScratchPtr(base)][base + 1 := ScratchField(base, 0)],
                  scratch := f.scratch[base := PollCell(Some(ParseInt(status)), None)]), w))
  {
    hide ParseInt, ExecProg, StoreScratch, StoreHeader, EnvField, ExecCode;
    var f1 := Set(f, base, ScratchPtr(base)).(scratch := f.scratch[base := PollCell(None, None)]);
    assert Exec(sem, layout, f, w, base, Alloca) == Some((f1, w));
    OneRuns(sem, layout, f, w, base, Alloca);
    var setStatus := [FieldPtr(Value(base), 0), Store(Value(base + 1), Number(status))];
    ScratchStoreRuns(sem, layout, f1, w, base + 1, base, 0, Number(status));
    ExecConcat(sem, layout, f, w, base, [Alloca], setStatus);
    assert PollHead(base, status) == [Alloca] + setStatus;
    assert f1.scratch[base := PollCell(Some(ParseInt(status)), None)]
      == f.scratch[base := PollCell(Some(ParseInt(status)), None)];
  }

  lemma ResultLoads<P, W>(sem: Sem<P, W>, layout: Layout, f: Frame<P>, w: W, id: nat, slot: ValueId)
    requires Reg(f, slot) == Some(ScratchPtr(slot)) && slot in f.scratch
    ensures ExecCode(sem, layout, f, w, id, [Load(Value(slot))])
      == Some((Set(f, id, Poll(f.scratch[slot].status, f.scratch[slot].value)), w))
  {
    hide ExecProg;
    assert Args(Load(Value(slot)))[0] == slot;
    OneRuns(sem, layout, f, w, id, Load(Value(slot)));
  }

  /** The code in front of a suspension puts state, status and future in the header and ends in a
      pending result. */
  lemma SuspendRuns<P, W>(
      sem: Sem<P, W>, layout: Layout, f: Frame<P>, w: W, base: nat, future: Operand, k: nat)
    requires Reg(f, 0) == Some(EnvPtr) && base > 0 && ValueReady(sem, f, base, Some(future))
    ensures var r := ExecCode(sem, layout, f, w, base, SuspendCode(base, future, k));
            && r.Some? && r.value.1 == w
            && r.value.0.header == Header(k, 0, ValueOf(sem, f, future).value.p)
            && Reg(r.value.0, base + 9) == Some(Poll(Some(0), None))
  {
    hide Exec, ParseInt, ToText, ExecCode, HeaderStore, PollCode;
    SmallNumbers();
    ParseOfText(k);
    var a := HeaderStore(base, CHILD_FIELD, future);
    var b := HeaderStore(base + 2, STATE_FIELD, Number(ToText(k)));
    var c := HeaderStore(base + 4, STATUS_FIELD, Number("0"));
    var d := PollCode(base + 6, "0", None);
    HeaderStoreRuns(sem, layout, f, w, base, CHILD_FIELD, future);
    var f1 := ExecCode(sem, layout, f, w, base, a).value.0;
    HeaderStoreRuns(sem, layout, f1, w, base + 2, STATE_FIELD, Number(ToText(k)));
    CodeLengths(base, future);
    ExecConcat(sem, layout, f, w, base, a, b);
    var f2 := ExecCode(sem, layout, f1, w, base + 2, b).value.0;
    HeaderStoreRuns(sem, layout, f2, w, base + 4, STATUS_FIELD, Number("0"));
    ExecConcat(sem, layout, f, w, base, a + b, c);
    var f3 := ExecCode(sem, layout, f2, w, base + 4, c).value.0;
    PollRuns(sem, layout, f3, w, base + 6, "0", None);
    ExecConcat(sem, layout, f, w, base, a + b + c, d);
  }

  lemma CodeLengths(base: nat, value: Operand)
    ensures forall b: nat, i: nat, op :: |HeaderStore(b, i, op)| == 2
    ensures forall b: nat, text :: |PollCode(b, text, None)| == 4
    ensures forall b: nat, text, op :: |PollCode(b, text, Some(op))| == 6
  {}

  /** The code in front of a return marks the polled task completed and ends in a ready result. */
  lemma ReadyRuns<P, W>(
      sem: Sem<P, W>, layout: Layout, f: Frame<P>, w: W, base: nat, value: Option<Operand>)
    requires Reg(f, 0) == Some(EnvPtr) && base > 0 && ValueReady(sem, f, base, value)
    ensures var code := ReadyCode(base, value);
            var r := ExecCode(sem, layout, f, w, base, code);
            && r.Some? && r.value.1 == w
            && r.value.0.header == f.header.(state := FUTURE_STATE_COMPLETED, status := 1)
            && |code| > 0 && Reg(r.value.0, base + |code| - 1) == Some(Poll(Some(1), PollValue(sem, f, value)))
  {
    hide Exec, ParseInt, ToText, ExecCode, HeaderStore, PollCode;
    SmallNumbers();
    ParseOfText(FUTURE_STATE_COMPLETED);
    var a := HeaderStore(base, STATE_FIELD, Number(ToText(FUTURE_STATE_COMPLETED)));
    var b := HeaderStore(base + 2, STATUS_FIELD, Number("1"));
    var d := PollCode(base + 4, "1", value);
    CodeLengths(base, Number("1"));
    HeaderStoreRuns(sem, layout, f, w, base, STATE_FIELD, Number(ToText(FUTURE_STATE_COMPLETED)));
    var f1 := ExecCode(sem, layout, f, w, base, a).value.0;
    HeaderStoreRuns(sem, layout, f1, w, base + 2, STATUS_FIELD, Number("1"));
    ExecConcat(sem, layout, f, w, base, a, b);
    var f2 := ExecCode(sem, layout, f1, w, base + 2, b).value.0;
    assert value.Some? ==> ValueOf(sem, f2, value.value) == ValueOf(sem, f, value.value);
    PollRuns(sem, layout, f2, w, base + 4, "1", value);
    ExecConcat(sem, layout, f, w, base, a + b, d);
  }

  /** The code behind a suspension awaits the future in the header. */
  lemma ResumeRuns<P, W>(sem: Sem<P, W>, layout: Layout, f: Frame<P>, w: W, base: nat)
    requires Reg(f, 0) == Some(EnvPtr) && base > 0
    ensures var r := ExecCode(sem, layout, f, w, base, ResumeCode(base));
            var (p, w') := sem.await(f.header.child, w);
            && r.Some? && r.value.1 == w' && Reg(r.value.0, base + 2) == Some(Prog(p))
            && forall v: ValueId :: v < base ==> Reg(r.value.0, v) == Reg(f, v)
  {
    hide Exec, ExecCode;
    var code := ResumeCode(base);
    var (p, w') := sem.await(f.header.child, w);
    var f1 := Set(f, base, HeaderPtr(CHILD_FIELD));
    var f2 := Set(f1, base + 1, Prog(f.header.child));
    var f3 := Set(f2, base + 2, Prog(p));
    var f4 := Set(f3, base + 3, Prog(sem.nul));
    ChildLoads(sem, layout, f, w, base);
    ChildAwaits(sem, layout, f2, w, base + 2, base + 1);
    NullRuns(sem, layout, f3, w', base + 3);
    StoreRuns(sem, layout, f4, w', base + 4, base, CHILD_FIELD, Value(base + 3));
    FiveRun(sem, layout, f, w, base, code, f1, w, f2, w, f3, w', f4, w');
  }

  lemma ChildLoads<P, W>(sem: Sem<P, W>, layout: Layout, f: Frame<P>, w: W, base: nat)
    requires Reg(f, 0) == Some(EnvPtr) && base > 0
    ensures var f1 := Set(f, base, HeaderPtr(CHILD_FIELD));
            && Exec(sem, layout, f, w, base, FieldPtr(Value(0), CHILD_FIELD)) == Some((f1, w))
            && Exec(sem, layout, f1, w, base + 1, Load(Value(base)))
              == Some((Set(f1, base + 1, Prog(f.header.child)), w))
  {
    hide ExecProg;
    assert Args(FieldPtr(Value(0), CHILD_FIELD))[0] == 0 && Args(Load(Value(base)))[0] == base;
  }

  lemma ChildAwaits<P, W>(sem: Sem<P, W>, layout: Layout, f: Frame<P>, w: W, id: nat, v: ValueId)
    requires Reg(f, v).Some? && Reg(f, v).value.Prog?
    ensures var (p, w') := sem.await(Reg(f, v).value.p, w);
            Exec(sem, layout, f, w, id, Await(Value(v))) == Some((Set(f, id, Prog(p)), w'))
  {
    hide ExecProg;
  }

  lemma NullRuns<P, W>(sem: Sem<P, W>, layout: Layout, f: Frame<P>, w: W, id: nat)
    ensures Exec(sem, layout, f, w, id, Null) == Some((Set(f, id, Prog(sem.nul)), w))
  {
    hide ExecProg;
  }

  lemma FiveRun<P, W>(
      sem: Sem<P, W>, layout: Layout, f: Frame<P>, w: W, base: nat, code: seq<Instruction>,
      f1: Frame<P>, w1: W, f2: Frame<P>, w2: W, f3: Frame<P>, w3: W, f4: Frame<P>, w4: W)
    requires |code| == 5
    requires Exec(sem, layout, f, w, base, code[0]) == Some((f1, w1))
    requires Exec(sem, layout, f1, w1, base + 1, code[1]) == Some((f2, w2))
    requires Exec(sem, layout, f2, w2, base + 2, code[2]) == Some((f3, w3))
    requires Exec(sem, layout, f3, w3, base + 3, code[3]) == Some((f4, w4))
    ensures ExecCode(sem, layout, f, w, base, code) == Exec(sem, layout, f4, w4, base + 4, code[4])
  {
    hide Exec;
    OneRuns(sem, layout, f4, w4, base + 4, code[4]);
    assert code[1..][0] == code[1] && code[1..][1..] == code[2..];
    assert code[2..][0] == code[2] && code[2..][1..] == code[3..];
    assert code[3..][0] == code[3] && code[3..][1..] == [code[4]];
    assert ExecCode(sem, layout, f3, w3, base + 3, code[3..]) == ExecCode(sem, layout, f4, w4, base + 4, [code[4]]);
    assert ExecCode(sem, layout, f2, w2, base + 2, code[2..]) == ExecCode(sem, layout, f3, w3, base + 3, code[3..]);
    assert ExecCode(sem, layout, f1, w1, base + 1, code[1..]) == ExecCode(sem, layout, f2, w2, base + 2, code[2..]);
  }
}
