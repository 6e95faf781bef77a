/** Polling a suspended task brings it to the code its state asks for. */
module AsyncDispatch {
  import opened Wrappers
  import opened Mvir
  import opened Decimal
  import opened AsyncMachine
  import opened AsyncLowering
  import opened AsyncResume
  import opened AsyncSimulation

  /** A finished translation of a function whose labels do not clash with made-up ones. */
  ghost predicate Built(func: Function, c: Cursor) {
    Lowerable(func) && DispatchLabelsFresh(func) && CameToBlock(func, c, |func.blocks|)
  }

  lemma InResume(func: Function, c: Cursor, i: nat)
    requires Built(func, c) && i < |Resume(func, c).blocks|
    ensures FindBlock(Resume(func, c).blocks, Resume(func, c).blocks[i].name) == Some(i)
  {
    hide Lowerable, DispatchLabelsFresh, CameToBlock, FindBlock, Front;
    ResumeDistinct(func, c);
    FindBlockFinds(Resume(func, c).blocks, i);
  }

  /** Translated code stands in the resume function. */
  lemma CodeStands(func: Function, c: Cursor, loc: Loc, base: nat, code: seq<Instruction>)
    requires Built(func, c) && CodeAt(c, loc, base, code)
    ensures Stands(Resume(func, c), loc.name, loc.pos, base, code)
  {
    hide Lowerable, DispatchLabelsFresh, Mapped, Labelled, Laid, FindBlock, Front;
    var res := Resume(func, c);
    var i :| 0 <= i < |Blocks(c)| && Blocks(c)[i].name == loc.name
      && CodeIn(c.values, Blocks(c)[i], loc.pos, base, code);
    InResume(func, c, |Front(func, c)| + i);
    assert res.blocks[|Front(func, c)| + i] == c.done[i];
    assert res.values[base..base + |code|] == c.values[base..base + |code|];
  }

  lemma EndStands(func: Function, c: Cursor, loc: Loc, term: Option<Terminator>)
    requires Built(func, c) && EndsAt(c, loc, term)
    ensures Ends(Resume(func, c), loc.name, loc.pos, term)
  {
    hide Lowerable, DispatchLabelsFresh, CameToBlock, FindBlock, Front;
    var res := Resume(func, c);
    var i :| 0 <= i < |c.done| && c.done[i] == BasicBlock(loc.name, c.done[i].insts, term)
      && |c.done[i].insts| == loc.pos;
    InResume(func, c, |Front(func, c)| + i);
    assert res.blocks[|Front(func, c)| + i] == c.done[i];
  }

  // ----- the entry -----------------------------------------------------------------------

  function LayoutFor(func: Function): Layout {
    LayoutOf(Locals(func))
  }

  /** The environment and the first `n` locals have their addresses. */
  ghost predicate AddressesTo<P, W>(func: Function, sem: Sem<P, W>, f: Frame<P>, n: nat)
    requires n <= |Locals(func)|
  {
    && Reg(f, 0) == Some(EnvPtr)
    && forall i: nat :: i < n ==> Reg(f, 1 + i) == Some(Prog(sem.cell(Locals(func)[i])))
  }

  ghost predicate Addresses<P, W>(func: Function, sem: Sem<P, W>, f: Frame<P>) {
    AddressesTo(func, sem, f, |Locals(func)|)
  }

  lemma {:induction false} FieldsRun<P, W>(func: Function, sem: Sem<P, W>, f: Frame<P>, w: W, n: nat)
    requires n <= |Locals(func)| && AddressesTo(func, sem, f, n)
    ensures var r := ExecCode(sem, LayoutFor(func), f, w, 1 + n, BaseValues(func)[1 + n..]);
            r.Some? && r.value.1 == w && r.value.0.header == f.header && Addresses(func, sem, r.value.0)
    decreases |Locals(func)| - n
  {
    hide Exec, LayoutOf, Locals;
    var code := BaseValues(func)[1 + n..];
    if n < |Locals(func)| {
      var f' := Set(f, 1 + n, Prog(sem.cell(Locals(func)[n])));
      assert code[0] == FieldPtr(Value(0), FIRST_LOCAL_FIELD + n);
      FieldRuns(func, sem, f, w, n);
      assert AddressesTo(func, sem, f', n + 1);
      FieldsRun(func, sem, f', w, n + 1);
      assert code[1..] == BaseValues(func)[1 + (n + 1)..];
    } else {
      assert code == [];
    }
  }

  lemma FieldRuns<P, W>(func: Function, sem: Sem<P, W>, f: Frame<P>, w: W, n: nat)
    requires n < |Locals(func)| && Reg(f, 0) == Some(EnvPtr)
    ensures Exec(sem, LayoutFor(func), f, w, 1 + n, FieldPtr(Value(0), FIRST_LOCAL_FIELD + n))
      == Some((Set(f, 1 + n, Prog(sem.cell(Locals(func)[n]))), w))
  {
    hide ExecProg, Locals;
    assert Args(FieldPtr(Value(0), FIRST_LOCAL_FIELD + n))[0] == 0;
    assert IsLocalField(Locals(func), FIRST_LOCAL_FIELD + n);
    assert FIRST_LOCAL_FIELD + n in LayoutFor(func);
  }

  /** What a polled task starts with. */
  function EntryFrame<P>(h: Header<P>): Frame<P> {
    Frame(map[0 := EnvPtr], map[], h)
  }

  lemma BaseRuns<P, W>(func: Function, sem: Sem<P, W>, h: Header<P>, w: W)
    ensures var r := ExecCode(sem, LayoutFor(func), EntryFrame(h), w, 0, BaseValues(func));
            r.Some? && r.value.1 == w && r.value.0.header == h && Addresses(func, sem, r.value.0)
  {
    hide LayoutOf, Locals, ExecProg;
    var f := EntryFrame(h);
    assert BaseValues(func)[0] == Alloca;
    assert Exec(sem, LayoutFor(func), f, w, 0, Alloca) == Some((f, w));
    assert AddressesTo(func, sem, f, 0);
    FieldsRun(func, sem, f, w, 0);
  }

  lemma BaseStands(func: Function, c: Cursor)
    requires Built(func, c)
    ensures Stands(Resume(func, c), ENTRY_DISPATCH, 0, 0, BaseValues(func))
  {
    hide Lowerable, DispatchLabelsFresh, Labelled, Laid, FindBlock, Locals;
    var res := Resume(func, c);
    FrontLabels(func, c, 0);
    InResume(func, c, 0);
    assert res.blocks[0] == Front(func, c)[0];
    assert |BaseValues(func)| == FirstId(func);
    assert BaseValues(func) <= c.values <= res.values;
    assert res.values[0..FirstId(func)] == BaseValues(func);
  }

  /** The state's address, the state, and whether it is 0. */
  function HeadCode(base: nat): seq<Instruction> {
    [FieldPtr(Value(0), STATE_FIELD), Load(Value(base)), EqState(base + 1, 0)]
  }

  lemma HeadStands(func: Function, c: Cursor)
    requires Built(func, c) && c.awaits != []
    ensures Stands(Resume(func, c), ENTRY_DISPATCH, FirstId(func), |c.values|, HeadCode(|c.values|))
    ensures Ends(Resume(func, c), ENTRY_DISPATCH, FirstId(func) + 3,
                 Some(CondBr(Value(|c.values| + 2), EntryLabel(func), DispatchLabel(1))))
  {
    hide Built, FindBlock, FirstId, ToText;
    var res, base := Resume(func, c), |c.values|;
    FrontLabels(func, c, 0);
    InResume(func, c, 0);
    assert res.blocks[0] == EntryDispatch(func, base);
    assert res.values[base..base + 3] == HeadCode(base);
  }

  lemma DirectEnds(func: Function, c: Cursor)
    requires Built(func, c) && c.awaits == []
    ensures Ends(Resume(func, c), ENTRY_DISPATCH, FirstId(func), Some(Br(EntryLabel(func))))
  {
    hide Built, FindBlock, FirstId;
    FrontLabels(func, c, 0);
    InResume(func, c, 0);
    assert Resume(func, c).blocks[0] == DirectEntry(func);
  }

  lemma ChainStands(func: Function, c: Cursor, k: nat)
    requires Built(func, c) && 1 <= k <= |c.awaits|
    ensures Stands(Resume(func, c), DispatchLabel(k), 0, |c.values| + 2 + k, [EqState(|c.values| + 1, k)])
    ensures Ends(Resume(func, c), DispatchLabel(k), 1,
                 Some(CondBr(Value(|c.values| + 2 + k), ResumeLabel(k), NextDispatch(k, |c.awaits|))))
  {
    hide Built, FindBlock, FirstId, ToText;
    var res, base, n := Resume(func, c), |c.values|, |c.awaits|;
    FrontLabels(func, c, k);
    InResume(func, c, k);
    assert res.blocks[k] == Front(func, c)[k] == DispatchChain(base, n)[k - 1] == DispatchBlock(base, k, n);
    assert res.values[base + 2 + k] == DispatchValues(base, n)[2 + k] == EqState(base + 1, k);
    assert res.values[base + 2 + k..base + 2 + k + 1] == [EqState(base + 1, k)];
  }

  lemma EqRuns<P, W>(sem: Sem<P, W>, layout: Layout, f: Frame<P>, w: W, id: nat, state: ValueId, s: int, k: nat)
    requires Reg(f, state) == Some(Int(s))
    ensures Exec(sem, layout, f, w, id, EqState(state, k)) == Some((Set(f, id, Flag(s == k)), w))
  {
    hide ExecProg, ParseInt, ToText;
    ParseOfText(k);
    assert Args(EqState(state, k))[0] == state;
  }

  lemma StateLoads<P, W>(sem: Sem<P, W>, layout: Layout, f: Frame<P>, w: W, base: nat)
    requires Reg(f, 0) == Some(EnvPtr) && base > 0
    ensures var f1 := Set(f, base, HeaderPtr(STATE_FIELD));
            && Exec(sem, layout, f, w, base, FieldPtr(Value(0), STATE_FIELD)) == Some((f1, w))
            && Exec(sem, layout, f1, w, base + 1, Load(Value(base)))
              == Some((Set(f1, base + 1, Int(f.header.state)), w))
  {
    hide ExecProg;
    assert Args(FieldPtr(Value(0), STATE_FIELD))[0] == 0 && Args(Load(Value(base)))[0] == base;
  }

  lemma HeadRuns<P, W>(sem: Sem<P, W>, layout: Layout, f: Frame<P>, w: W, base: nat)
    requires Reg(f, 0) == Some(EnvPtr) && base > 0
    ensures var f1 := Set(f, base, HeaderPtr(STATE_FIELD));
            var f2 := Set(f1, base + 1, Int(f.header.state));
            ExecCode(sem, layout, f, w, base, HeadCode(base)) == Some((Set(f2, base + 2, Flag(f.header.state == 0)), w))
  {
    hide Exec;
    var code := HeadCode(base);
    var f1 := Set(f, base, HeaderPtr(STATE_FIELD));
    var f2 := Set(f1, base + 1, Int(f.header.state));
    StateLoads(sem, layout, f, w, base);
    EqRuns(sem, layout, f2, w, base + 2, base + 1, f.header.state, 0);
    OneRuns(sem, layout, f2, w, base + 2, code[2]);
    assert code[1..][0] == code[1] && code[1..][1..] == [code[2]];
  }

  // ----- the chain -----------------------------------------------------------------------

  /** From `t` the polled task comes to block `name` with all addresses in place and header `h`. */
  ghost predicate Enters<P(!new), W>(
      func: Function, c: Cursor, sem: Sem<P, W>, t: Task<P, W>, name: Label, h: Header<P>, w: W) {
    exists f :: Addresses(func, sem, f) && f.header == h
      && Reaches(Resume(func, c), sem, LayoutFor(func), t, Running(name, 0, f, w))
  }

  lemma EntersFrom<P(!new), W>(
      func: Function, c: Cursor, sem: Sem<P, W>, t: Task<P, W>, u: Task<P, W>, name: Label, h: Header<P>, w: W)
    requires Reaches(Resume(func, c), sem, LayoutFor(func), t, u) && Enters(func, c, sem, u, name, h, w)
    ensures Enters(func, c, sem, t, name, h, w)
  {
    hide Reaches, Resume, Addresses, LayoutFor;
    var f :| Addresses(func, sem, f) && f.header == h
      && Reaches(Resume(func, c), sem, LayoutFor(func), u, Running(name, 0, f, w));
    ReachesTrans(Resume(func, c), sem, LayoutFor(func), t, u, Running(name, 0, f, w));
  }

  lemma SetKeeps<P, W>(func: Function, sem: Sem<P, W>, f: Frame<P>, id: nat, r: RVal<P>)
    requires Addresses(func, sem, f) && id >= FirstId(func)
    ensures Addresses(func, sem, Set(f, id, r))
  {
    hide Locals;
  }

  lemma {:induction false} ChainEnters<P(!new), W>(
      func: Function, c: Cursor, sem: Sem<P, W>, f: Frame<P>, w: W, i: nat, s: int)
    requires Built(func, c) && 1 <= i <= |c.awaits| && FirstId(func) <= |c.values|
    requires Addresses(func, sem, f) && Reg(f, |c.values| + 1) == Some(Int(s))
    ensures var name := if i <= s <= |c.awaits| then ResumeLabel(s) else UNREACHABLE_DISPATCH;
            Enters(func, c, sem, Running(DispatchLabel(i), 0, f, w), name, f.header, w)
    decreases |c.awaits| - i
  {
    hide Built, Resume, Exec, ExecCode, Reaches, Addresses, Stands, Ends, FirstId, LayoutFor, DispatchLabel,
      ResumeLabel;
    var res, base, n := Resume(func, c), |c.values|, |c.awaits|;
    var id := base + 2 + i;
    var code := [EqState(base + 1, i)];
    var f1 := Set(f, id, Flag(s == i));
    ChainStands(func, c, i);
    EqRuns(sem, LayoutFor(func), f, w, id, base + 1, s, i);
    OneRuns(sem, LayoutFor(func), f, w, id, EqState(base + 1, i));
    RunCode(res, sem, LayoutFor(func), DispatchLabel(i), 0, f, w, id, code);
    var term := Some(CondBr(Value(id), ResumeLabel(i), NextDispatch(i, n)));
    RunEnd(res, sem, LayoutFor(func), DispatchLabel(i), 1, f1, w, term);
    SetKeeps(func, sem, f, id, Flag(s == i));
    var next: Task<P, W> := Running(if s == i then ResumeLabel(i) else NextDispatch(i, n), 0, f1, w);
    ReachesTrans(res, sem, LayoutFor(func), Running(DispatchLabel(i), 0, f, w), Running(DispatchLabel(i), 1, f1, w),
      next);
    if s == i {
      assert Enters(func, c, sem, Running(DispatchLabel(i), 0, f, w), ResumeLabel(i), f.header, w);
    } else if i == n {
      assert Enters(func, c, sem, Running(DispatchLabel(i), 0, f, w), UNREACHABLE_DISPATCH, f.header, w);
    } else {
      ChainEnters(func, c, sem, f1, w, i + 1, s);
      var name := if i + 1 <= s <= n then ResumeLabel(s) else UNREACHABLE_DISPATCH;
      EntersFrom(func, c, sem, Running(DispatchLabel(i), 0, f, w), next, name, f.header, w);
    }
  }

  /** Where the code for a stored state starts: for state 0, and for any state of a function without
      awaits, at the first block, and for a state that is no await's in the block that traps. */
  function Target(func: Function, c: Cursor, s: int): Label {
    if c.awaits == [] || s == 0 then EntryLabel(func)
    else if 1 <= s <= |c.awaits| then ResumeLabel(s) else UNREACHABLE_DISPATCH
  }

  lemma EntryEnters<P(!new), W>(func: Function, c: Cursor, sem: Sem<P, W>, f: Frame<P>, w: W)
    requires Built(func, c) && FirstId(func) <= |c.values|
    requires Addresses(func, sem, f)
    ensures Enters(func, c, sem, Running(ENTRY_DISPATCH, FirstId(func), f, w), Target(func, c, f.header.state),
      f.header, w)
  {
    hide Built, Resume, Exec, ExecCode, Reaches, AddressesTo, Stands, Ends, FirstId, LayoutFor, DispatchLabel,
      ResumeLabel, HeadCode, EntryLabel;
    var res, base, layout := Resume(func, c), |c.values|, LayoutFor(func);
    var s := f.header.state;
    var start: Task<P, W> := Running(ENTRY_DISPATCH, FirstId(func), f, w);
    if c.awaits == [] {
      DirectEnds(func, c);
      RunEnd(res, sem, layout, ENTRY_DISPATCH, FirstId(func), f, w, Some(Br(EntryLabel(func))));
      assert Enters(func, c, sem, start, EntryLabel(func), f.header, w);
    } else {
      HeadStands(func, c);
      EnvAddress(func, sem, f);
      HeadRuns(sem, layout, f, w, base);
      HeadLength(base);
      RunCode(res, sem, layout, ENTRY_DISPATCH, FirstId(func), f, w, base, HeadCode(base));
      var f1 := Set(f, base, HeaderPtr(STATE_FIELD));
      var f2 := Set(f1, base + 1, Int(s));
      var f3 := Set(f2, base + 2, Flag(s == 0));
      SetKeeps(func, sem, f, base, HeaderPtr(STATE_FIELD));
      SetKeeps(func, sem, f1, base + 1, Int(s));
      SetKeeps(func, sem, f2, base + 2, Flag(s == 0));
      var term := Some(CondBr(Value(base + 2), EntryLabel(func), DispatchLabel(1)));
      RunEnd(res, sem, layout, ENTRY_DISPATCH, FirstId(func) + 3, f3, w, term);
      var next: Task<P, W> := Running(if s == 0 then EntryLabel(func) else DispatchLabel(1), 0, f3, w);
      ReachesTrans(res, sem, layout, start, Running(ENTRY_DISPATCH, FirstId(func) + 3, f3, w), next);
      if s == 0 {
        assert Enters(func, c, sem, start, EntryLabel(func), f.header, w);
      } else {
        ChainEnters(func, c, sem, f3, w, 1, s);
        EntersFrom(func, c, sem, start, next, Target(func, c, s), f.header, w);
      }
    }
  }

  lemma HeadLength(base: nat)
    ensures |HeadCode(base)| == 3
  {}

  lemma EnvAddress<P, W>(func: Function, sem: Sem<P, W>, f: Frame<P>)
    requires Addresses(func, sem, f)
    ensures Reg(f, 0) == Some(EnvPtr) && FirstId(func) > 0
  {}

  /** Polling a task brings it to the code for its stored state, whatever number that is. */
  lemma PollEnters<P(!new), W>(func: Function, c: Cursor, sem: Sem<P, W>, h: Header<P>, w: W)
    requires Built(func, c)
    ensures Enters(func, c, sem, Suspended(h, w), Target(func, c, h.state), h, w)
  {
    hide Lowerable, DispatchLabelsFresh, Labelled, Laid, Resume, ExecCode, Reaches, Addresses, Stands, LayoutFor,
      FirstId, BaseValues, Target, Enters;
    var res, layout := Resume(func, c), LayoutFor(func);
    FirstFree(func, c, |func.blocks|, 0);
    Polled(func, c, sem, h, w);
    BaseStands(func, c);
    BaseRuns(func, sem, h, w);
    BaseLength(func);
    RunCode(res, sem, layout, ENTRY_DISPATCH, 0, EntryFrame(h), w, 0, BaseValues(func));
    var f := ExecCode(sem, layout, EntryFrame(h), w, 0, BaseValues(func)).value.0;
    EntryEnters(func, c, sem, f, w);
    EntersFrom(func, c, sem, Running(ENTRY_DISPATCH, 0, EntryFrame(h), w), Running(ENTRY_DISPATCH, FirstId(func), f, w),
      Target(func, c, h.state), h, w);
    EntersFrom(func, c, sem, Suspended(h, w), Running(ENTRY_DISPATCH, 0, EntryFrame(h), w), Target(func, c, h.state),
      h, w);
  }

  /** The block that traps stands behind the dispatch chain. */
  lemma TrapEnds(func: Function, c: Cursor)
    requires Built(func, c) && c.awaits != []
    ensures Ends(Resume(func, c), UNREACHABLE_DISPATCH, 0, Some(Unreachable))
  {
    hide Built, FindBlock, DispatchChain;
    var i := |c.awaits| + 1;
    ChainLength(|c.values|, |c.awaits|);
    FrontLabels(func, c, i);
    InResume(func, c, i);
    assert Resume(func, c).blocks[i] == Front(func, c)[i] == BasicBlock(UNREACHABLE_DISPATCH, [], Some(Unreachable));
  }

  lemma ChainLength(base: nat, n: nat)
    ensures |DispatchChain(base, n)| == n
  {}

  /** Polling a task that has completed does not give its value again: with awaits it traps, and
      without it runs the function anew from its first block. */
  lemma PollCompleted<P(!new), W>(func: Function, c: Cursor, sem: Sem<P, W>, h: Header<P>, w: W)
    requires Built(func, c) && h.state == FUTURE_STATE_COMPLETED
    ensures c.awaits != [] ==> Reaches(Resume(func, c), sem, LayoutFor(func), Suspended(h, w), Crashed)
    ensures c.awaits == [] ==> Enters(func, c, sem, Suspended(h, w), EntryLabel(func), h, w)
  {
    hide Built, Resume, Reaches, Addresses, Ends, LayoutFor, FindBlock;
    PollEnters(func, c, sem, h, w);
    if c.awaits != [] {
      var res, layout := Resume(func, c), LayoutFor(func);
      var f :| Addresses(func, sem, f) && f.header == h
        && Reaches(res, sem, layout, Suspended(h, w), Running(UNREACHABLE_DISPATCH, 0, f, w));
      TrapEnds(func, c);
      RunEnd(res, sem, layout, UNREACHABLE_DISPATCH, 0, f, w, Some(Unreachable));
      ReachesTrans(res, sem, layout, Suspended(h, w), Running(UNREACHABLE_DISPATCH, 0, f, w), Crashed);
    }
  }

  lemma BaseLength(func: Function)
    ensures |BaseValues(func)| == FirstId(func)
  {}

  lemma Polled<P, W>(func: Function, c: Cursor, sem: Sem<P, W>, h: Header<P>, w: W)
    ensures Reaches(Resume(func, c), sem, LayoutFor(func), Suspended(h, w),
      Running(ENTRY_DISPATCH, 0, EntryFrame(h), w))
  {
    hide Exec, ExecJump, FindBlock, DispatchChain, LayoutOf;
    FrontLabels(func, c, 0);
    assert Resume(func, c).blocks[0] == Front(func, c)[0];
    ReachesStep(Resume(func, c), sem, LayoutFor(func), Suspended(h, w), Running(ENTRY_DISPATCH, 0, EntryFrame(h), w));
  }
}
