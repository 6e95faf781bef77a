/** The lowered function does what the function it came from does. */
module AsyncCorrectness {
  import opened Wrappers
  import opened Mvir
  import opened AsyncMachine
  import opened AsyncLowering
  import opened AsyncResume
  import opened AsyncSimulation
  import opened AsyncDispatch

  /** Values that may be used from a point on. */
  type LiveAt = (nat, nat) -> set<ValueId>

  ghost predicate LiveInst(func: Function, live: LiveAt, b: nat, j: nat)
    requires b < |func.blocks| && j < |func.blocks[b].insts|
  {
    var v := func.blocks[b].insts[j];
    && (forall x :: x in Args(InstAt(func, b, j)) ==> x in live(b, j))
    && (forall x :: x in live(b, j + 1) && x != v ==> x in live(b, j))
    && (InstAt(func, b, j).Await? ==> forall x :: x in live(b, j + 1) ==> x == v || IsLocal(func, x))
  }

  ghost predicate LiveTerm(func: Function, live: LiveAt, b: nat)
    requires b < |func.blocks|
  {
    var end := |func.blocks[b].insts|;
    && (forall x :: x in TermArgs(func.blocks[b].terminator) ==> x in live(b, end))
    && forall b': nat, x: ValueId ::
         (b' < |func.blocks| && func.blocks[b'].name in Successors(func.blocks[b]) && x in live(b', 0))
         ==> x in live(b, end)
  }

  /** `live` accounts for all uses, and no temporary in it lives across an await. */
  ghost predicate NothingCrossesAwaits(func: Function, live: LiveAt) {
    && (forall b: nat, j: nat {:trigger LiveInst(func, live, b, j)} ::
          b < |func.blocks| && j < |func.blocks[b].insts| ==> LiveInst(func, live, b, j))
    && (forall b: nat {:trigger LiveTerm(func, live, b)} :: b < |func.blocks| ==> LiveTerm(func, live, b))
  }

  // ----- the relation --------------------------------------------------------------------

  /** Locals have their addresses, and the temporaries that may still be used their values. */
  ghost predicate Holds<P, W>(
      func: Function, c: Cursor, sem: Sem<P, W>, live: set<ValueId>, regs: map<ValueId, P>, f: Frame<P>)
  {
    && Addresses(func, sem, f)
    && forall x :: x in live && !IsLocal(func, x) && x in regs ==>
         x in c.valMap && Reg(f, c.valMap[x]) == Some(Prog(regs[x]))
  }

  ghost predicate AtPoint<P, W>(
      func: Function, c: Cursor, sem: Sem<P, W>, live: LiveAt, s: Config<P, W>, t: Task<P, W>)
    requires s.At? && t.Running?
  {
    && s.b < |func.blocks| && IsPoint(func, s.b, s.j)
    && Loc(t.name, t.pos) == LocOf(func, s.b, s.j)
    && t.w == s.w
    && Holds(func, c, sem, live(s.b, s.j), s.regs, t.frame)
  }

  /** The polled task is where the function is: at the code of the same point, or ready with its result. */
  ghost predicate Matches<P, W>(
      func: Function, c: Cursor, sem: Sem<P, W>, live: LiveAt, s: Config<P, W>, t: Task<P, W>)
  {
    match s
    case At(_, _, _, _) => t.Running? && AtPoint(func, c, sem, live, s, t)
    case Done(value, w) =>
      t.Ready? && t.value == value && t.w == w && t.header.state == FUTURE_STATE_COMPLETED && t.header.status == 1
    case Stuck => false
  }

  /** From `t` the polled task comes to a state that matches `s`. */
  ghost predicate Follows<P(!new), W(!new)>(
      func: Function, c: Cursor, sem: Sem<P, W>, live: LiveAt, s: Config<P, W>, t: Task<P, W>)
  {
    exists u :: Reaches(Resume(func, c), sem, LayoutFor(func), t, u) && Matches(func, c, sem, live, s, u)
  }

  lemma FollowsAt<P(!new), W(!new)>(
      func: Function, c: Cursor, sem: Sem<P, W>, live: LiveAt, s: Config<P, W>, t: Task<P, W>, u: Task<P, W>)
    requires Reaches(Resume(func, c), sem, LayoutFor(func), t, u) && Matches(func, c, sem, live, s, u)
    ensures Follows(func, c, sem, live, s, t)
  {}

  lemma LocalAddress<P, W>(func: Function, c: Cursor, sem: Sem<P, W>, f: Frame<P>, v: ValueId)
    requires Addresses(func, sem, f) && LocalsMapped(func, c.valMap) && IsLocal(func, v)
    ensures v in c.valMap && Reg(f, c.valMap[v]) == Some(Prog(sem.cell(v)))
  {
    LocalsToAre(func.values, |func.values|);
    hide LocalsTo;
    assert v in Locals(func);
    var i :| 0 <= i < |Locals(func)| && Locals(func)[i] == v;
    assert Reg(f, 1 + i) == Some(Prog(sem.cell(v)));
  }

  /** What an operand of the function is, its mapped operand is for the polled task. */
  lemma EvalHolds<P, W>(
      func: Function, c: Cursor, sem: Sem<P, W>, live: set<ValueId>, regs: map<ValueId, P>, f: Frame<P>, v: ValueId)
    requires Holds(func, c, sem, live, regs, f) && LocalsMapped(func, c.valMap) && v in live
    requires Eval(func, sem, regs, v).Some?
    ensures Reg(f, MapId(c.valMap)(v)) == Some(Prog(Eval(func, sem, regs, v).value))
  {
    hide Addresses, LocalsMapped;
    if IsLocal(func, v) {
      LocalAddress(func, c, sem, f, v);
    }
  }

  lemma EvalOpHolds<P, W>(
      func: Function, c: Cursor, sem: Sem<P, W>, live: set<ValueId>, regs: map<ValueId, P>, f: Frame<P>, op: Operand)
    requires Holds(func, c, sem, live, regs, f) && LocalsMapped(func, c.valMap)
    requires forall x :: x in OpArg(op) ==> x in live
    requires EvalOp(func, sem, regs, op).Some?
    ensures ValueOf(sem, f, MapOp(op, MapId(c.valMap))) == Some(Prog(EvalOp(func, sem, regs, op).value))
  {
    hide Holds, LocalsMapped;
    if op.Value? {
      assert op.id in OpArg(op);
      EvalHolds(func, c, sem, live, regs, f, op.id);
    }
  }

  lemma {:induction false} EvalAllHolds<P, W>(
      func: Function, c: Cursor, sem: Sem<P, W>, live: set<ValueId>, regs: map<ValueId, P>, f: Frame<P>,
      vs: seq<ValueId>)
    requires Holds(func, c, sem, live, regs, f) && LocalsMapped(func, c.valMap)
    requires forall x :: x in vs ==> x in live
    requires EvalAll(func, sem, regs, vs).Some?
    ensures ProgArgs(f, Image(vs, MapId(c.valMap))) == EvalAll(func, sem, regs, vs)
  {
    hide Holds, LocalsMapped;
    if vs != [] {
      EvalHolds(func, c, sem, live, regs, f, vs[0]);
      assert forall x :: x in vs[1..] ==> x in vs;
      EvalAllHolds(func, c, sem, live, regs, f, vs[1..]);
      assert Image(vs, MapId(c.valMap))[1..] == Image(vs[1..], MapId(c.valMap));
    }
  }

  /** An instruction all of whose operands are program values is executed as such. */
  lemma ExecOnProg<P, W>(sem: Sem<P, W>, layout: Layout, f: Frame<P>, w: W, id: nat, inst: Instruction)
    requires ProgArgs(f, Args(inst)).Some? && !inst.Alloca? && !inst.Null? && !inst.Await?
    ensures Exec(sem, layout, f, w, id, inst) == ExecProg(sem, f, w, id, inst)
  {
    hide ExecProg, StoreHeader, StoreScratch, LoadFrom, EnvField;
    var args := Args(inst);
    if args != [] {
      assert Reg(f, args[0]).Some? && Reg(f, args[0]).value.Prog?;
    }
  }

  // ----- one step ------------------------------------------------------------------------

  lemma PointLaid(func: Function, c: Cursor, live: LiveAt, b: nat, j: nat)
    requires Built(func, c) && NothingCrossesAwaits(func, live) && b < |func.blocks| && j < |func.blocks[b].insts|
    ensures InstLaid(func, c, b, j) && LiveInst(func, live, b, j) && LocalsMapped(func, c.valMap)
    ensures func.blocks[b].insts[j] < |func.values| && InstAt(func, b, j) == func.values[func.blocks[b].insts[j]]
  {
    hide InstLaid, LiveInst, TermLaid, LiveTerm, LocalsMapped, ListedOnce, DefinedFirst, ResumeLabelsFresh,
      DispatchLabelsFresh, Labelled;
    assert func.blocks[b].insts[j] in func.blocks[b].insts;
    assert Before(b, j, |func.blocks|, 0);
  }

  lemma ValMapInjective(func: Function, c: Cursor)
    requires Built(func, c)
    ensures forall u, v :: u in c.valMap && v in c.valMap && c.valMap[u] == c.valMap[v] ==> u == v
    ensures forall v :: v in c.valMap && !IsLocal(func, v) ==> c.valMap[v] >= FirstId(func)
  {
    hide Lowerable, DispatchLabelsFresh, Labelled, Laid, ListedBefore, FirstId;
  }

  /** A value has been computed and kept on both sides. */
  lemma HoldsAfter<P, W>(
      func: Function, c: Cursor, sem: Sem<P, W>, before: set<ValueId>, after: set<ValueId>, regs: map<ValueId, P>,
      f: Frame<P>, v: ValueId, p: P)
    requires Built(func, c) && Holds(func, c, sem, before, regs, f)
    requires v in c.valMap && !IsLocal(func, v)
    requires forall x :: x in after && x != v ==> x in before
    ensures Holds(func, c, sem, after, regs[v := p], Set(f, c.valMap[v], Prog(p)))
  {
    hide Built, Addresses, FirstId;
    ValMapInjective(func, c);
    SetKeeps(func, sem, f, c.valMap[v], Prog(p));
  }

  lemma LocalStep<P(!new), W(!new)>(
      func: Function, c: Cursor, sem: Sem<P, W>, live: LiveAt, s: Config<P, W>, t: Task<P, W>)
    requires Built(func, c) && NothingCrossesAwaits(func, live) && s.At? && Matches(func, c, sem, live, s, t)
    requires s.j < |func.blocks[s.b].insts| && InstAt(func, s.b, s.j).Alloca?
    ensures Follows(func, c, sem, live, Step(func, sem, s), t)
  {
    hide Built, Reaches, Resume, Addresses, InstLaid;
    PointLaid(func, c, live, s.b, s.j);
    assert Step(func, sem, s) == s.(j := s.j + 1);
    assert LocOf(func, s.b, s.j + 1) == LocOf(func, s.b, s.j);
    var v := func.blocks[s.b].insts[s.j];
    assert forall x :: x in live(s.b, s.j + 1) && !IsLocal(func, x) ==> x in live(s.b, s.j);
    ReachesSelf(Resume(func, c), sem, LayoutFor(func), t);
    FollowsAt(func, c, sem, live, Step(func, sem, s), t, t);
  }

  lemma GeneralStep<P(!new), W(!new)>(
      func: Function, c: Cursor, sem: Sem<P, W>, live: LiveAt, s: Config<P, W>, t: Task<P, W>)
    requires Built(func, c) && NothingCrossesAwaits(func, live) && s.At? && Matches(func, c, sem, live, s, t)
    requires s.j < |func.blocks[s.b].insts| && !InstAt(func, s.b, s.j).Alloca? && !InstAt(func, s.b, s.j).Await?
    requires !Step(func, sem, s).Stuck?
    ensures Follows(func, c, sem, live, Step(func, sem, s), t)
  {
    hide Built, Reaches, Resume, Addresses, CodeAt, Holds, Exec, Advance, Stands, LocalsMapped, Args, MapInst, OpcodeOf,
      EvalAll, NothingCrossesAwaits, FirstId;
    PointLaid(func, c, live, s.b, s.j);
    var res, layout := Resume(func, c), LayoutFor(func);
    var v, inst, loc := func.blocks[s.b].insts[s.j], InstAt(func, s.b, s.j), LocOf(func, s.b, s.j);
    var id, mapped := c.valMap[v], MapInst(inst, MapId(c.valMap));
    CodeStands(func, c, loc, id, [mapped]);
    GeneralExec(func, c, sem, live(s.b, s.j), s, t.frame, v, id);
    var after := Step(func, sem, s);
    var f' := Set(t.frame, id, Prog(after.regs[v]));
    OneRuns(sem, layout, t.frame, s.w, id, mapped);
    RunCode(res, sem, layout, t.name, t.pos, t.frame, s.w, id, [mapped]);
    HoldsAfter(func, c, sem, live(s.b, s.j), live(s.b, s.j + 1), s.regs, t.frame, v, after.regs[v]);
    FollowsAt(func, c, sem, live, after, t, Running(t.name, t.pos + 1, f', after.w));
  }

  /** The mapped instruction computes what the instruction computes. */
  lemma GeneralExec<P, W>(
      func: Function, c: Cursor, sem: Sem<P, W>, live: set<ValueId>, s: Config<P, W>, f: Frame<P>, v: ValueId, id: nat)
    requires s.At? && v < |func.values| && !func.values[v].Alloca? && !func.values[v].Await?
    requires Holds(func, c, sem, live, s.regs, f) && LocalsMapped(func, c.valMap)
    requires forall x :: x in Args(func.values[v]) ==> x in live
    requires !ExecInst(func, sem, s, v).Stuck?
    ensures var after := ExecInst(func, sem, s, v);
            && after.At? && after.b == s.b && after.j == s.j + 1 && v in after.regs
              && after.regs == s.regs[v := after.regs[v]]
            && Exec(sem, LayoutFor(func), f, s.w, id, MapInst(func.values[v], MapId(c.valMap)))
                 == Some((Set(f, id, Prog(after.regs[v])), after.w))
  {
    hide Holds, LocalsMapped, Args, MapInst, OpcodeOf, EvalAll, Exec;
    var inst := func.values[v];
    var mapped := MapInst(inst, MapId(c.valMap));
    InstMapped(inst, MapId(c.valMap));
    MapKeepsKind(inst, MapId(c.valMap));
    if inst.Null? {
      NullRuns(sem, LayoutFor(func), f, s.w, id);
    } else {
      EvalAllHolds(func, c, sem, live, s.regs, f, Args(inst));
      ExecOnProg(sem, LayoutFor(func), f, s.w, id, mapped);
    }
  }

  lemma MapKeepsKind(inst: Instruction, g: ValueId -> ValueId)
    ensures MapInst(inst, g).Alloca? <==> inst.Alloca?
    ensures MapInst(inst, g).Null? <==> inst.Null?
    ensures MapInst(inst, g).Await? <==> inst.Await?
    ensures inst.Null? ==> MapInst(inst, g) == Null
  {
    hide MapOp, MapOps, MapCaptures;
  }

  /** The code up to a suspension leaves the polled task suspended, awaiting the operand's value. */
  lemma Suspends<P, W>(
      func: Function, c: Cursor, sem: Sem<P, W>, loc: Loc, f: Frame<P>, w: W, id: nat, future: Operand, k: nat, p: P)
    requires Built(func, c) && AwaitLaid(func, c, loc, id, future, k) && Addresses(func, sem, f)
    requires ValueOf(sem, f, MapOp(future, MapId(c.valMap))) == Some(Prog(p))
    ensures Reaches(Resume(func, c), sem, LayoutFor(func), Running(loc.name, loc.pos, f, w),
      Suspended(Header(k, 0, p), w))
  {
    hide Built, Reaches, Resume, Addresses, CodeAt, EndsAt, Exec, ExecCode, Stands, Ends, FirstId, SuspendCode, MapOp,
      LayoutOf;
    var res, layout, base := Resume(func, c), LayoutFor(func), id - 12;
    var mapped := MapOp(future, MapId(c.valMap));
    var code := SuspendCode(base, mapped, k);
    var term := Some(Ret(Some(Value(base + 9))));
    EnvAddress(func, sem, f);
    SuspendRuns(sem, layout, f, w, base, mapped, k);
    var f' := ExecCode(sem, layout, f, w, base, code).value.0;
    CodeStands(func, c, loc, base, code);
    RunCode(res, sem, layout, loc.name, loc.pos, f, w, base, code);
    EndStands(func, c, Loc(loc.name, loc.pos + 10), term);
    RunEnd(res, sem, layout, loc.name, loc.pos + 10, f', w, term);
    assert ExecJump(sem, f', w, term) == Suspended(Header(k, 0, p), w);
    ReachesTrans(res, sem, layout, Running(loc.name, loc.pos, f, w), Running(loc.name, loc.pos + 10, f', w),
      Suspended(Header(k, 0, p), w));
  }

  /** Polled again, the polled task awaits the future and holds its result. */
  lemma Resumes<P(!new), W>(
      func: Function, c: Cursor, sem: Sem<P, W>, loc: Loc, w: W, id: nat, future: Operand, k: nat, p: P)
      returns (f: Frame<P>)
    requires Built(func, c) && AwaitLaid(func, c, loc, id, future, k) && 1 <= k <= |c.awaits|
    ensures var (r, w') := sem.await(p, w);
            && Addresses(func, sem, f) && Reg(f, id) == Some(Prog(r))
            && Reaches(Resume(func, c), sem, LayoutFor(func), Suspended(Header(k, 0, p), w),
              Running(ResumeLabel(k), 5, f, w'))
  {
    hide Built, Reaches, Resume, Addresses, CodeAt, EndsAt, Exec, ExecCode, Stands, Ends, FirstId, SuspendCode,
      ResumeCode, LayoutFor, MapOp, ResumeLabel;
    var res, layout, base := Resume(func, c), LayoutFor(func), id - 2;
    var h := Header(k, 0, p);
    PollEnters(func, c, sem, h, w);
    var f0 :| Addresses(func, sem, f0) && f0.header == h
      && Reaches(res, sem, layout, Suspended(h, w), Running(ResumeLabel(k), 0, f0, w));
    EnvAddress(func, sem, f0);
    ResumeRuns(sem, layout, f0, w, base);
    f := ExecCode(sem, layout, f0, w, base, ResumeCode(base)).value.0;
    ResumeLength(base);
    CodeStands(func, c, Loc(ResumeLabel(k), 0), base, ResumeCode(base));
    RunCode(res, sem, layout, ResumeLabel(k), 0, f0, w, base, ResumeCode(base));
    ReachesTrans(res, sem, layout, Suspended(h, w), Running(ResumeLabel(k), 0, f0, w),
      Running(ResumeLabel(k), 5, f, sem.await(p, w).1));
    AddressesStay(func, sem, f0, f, base);
  }

  lemma ResumeLength(base: nat)
    ensures |ResumeCode(base)| == 5
  {}

  lemma AddressesStay<P, W>(func: Function, sem: Sem<P, W>, f: Frame<P>, f': Frame<P>, base: nat)
    requires Addresses(func, sem, f) && base >= FirstId(func)
    requires forall v: ValueId :: v < base ==> Reg(f', v) == Reg(f, v)
    ensures Addresses(func, sem, f')
  {
    hide Locals, Reg;
  }

  lemma AwaitNumber(func: Function, c: Cursor, b: nat, j: nat)
    requires Built(func, c) && b < |func.blocks| && j < |func.blocks[b].insts| && InstAt(func, b, j).Await?
    ensures AwaitsBefore(func, b, j) + 1 <= |c.awaits|
    ensures LocOf(func, b, j + 1) == Loc(ResumeLabel(AwaitsBefore(func, b, j) + 1), 5)
  {
    hide Lowerable, DispatchLabelsFresh, Mapped, Labelled, Laid, ResumeLabel;
    AwaitsBounded(func, b, j + 1);
  }

  lemma AwaitStep<P(!new), W(!new)>(
      func: Function, c: Cursor, sem: Sem<P, W>, live: LiveAt, s: Config<P, W>, t: Task<P, W>)
    requires Built(func, c) && NothingCrossesAwaits(func, live) && s.At? && Matches(func, c, sem, live, s, t)
    requires s.j < |func.blocks[s.b].insts| && InstAt(func, s.b, s.j).Await?
    requires !Step(func, sem, s).Stuck?
    ensures Follows(func, c, sem, live, Step(func, sem, s), t)
  {
    hide Built, Reaches, Resume, Addresses, AwaitLaid, Exec, Advance, LocalsMapped, NothingCrossesAwaits, FirstId,
      CodeAt, ResumeLabel, AwaitsBefore, LocOf, MapOp;
    PointLaid(func, c, live, s.b, s.j);
    var res, layout := Resume(func, c), LayoutFor(func);
    var v, future := func.blocks[s.b].insts[s.j], InstAt(func, s.b, s.j).future;
    var loc, k, id := LocOf(func, s.b, s.j), AwaitsBefore(func, s.b, s.j) + 1, c.valMap[v];
    EvalOpHolds(func, c, sem, live(s.b, s.j), s.regs, t.frame, future);
    var p := EvalOp(func, sem, s.regs, future).value;
    Suspends(func, c, sem, loc, t.frame, s.w, id, future, k, p);
    AwaitNumber(func, c, s.b, s.j);
    var f := Resumes(func, c, sem, loc, s.w, id, future, k, p);
    var (r, w') := sem.await(p, s.w);
    ReachesTrans(res, sem, layout, t, Suspended(Header(k, 0, p), s.w), Running(ResumeLabel(k), 5, f, w'));
    var after := Step(func, sem, s);
    assert after == At(s.b, s.j + 1, s.regs[v := r], w');
    assert Holds(func, c, sem, live(s.b, s.j + 1), after.regs, f);
    FollowsAt(func, c, sem, live, after, t, Running(ResumeLabel(k), 5, f, w'));
  }

  // ----- terminators ---------------------------------------------------------------------

  lemma TermFacts(func: Function, c: Cursor, live: LiveAt, b: nat)
    requires Built(func, c) && NothingCrossesAwaits(func, live) && b < |func.blocks|
    ensures TermLaid(func, c, b) && LiveTerm(func, live, b) && LocalsMapped(func, c.valMap)
  {
    hide InstLaid, LiveInst, TermLaid, LiveTerm, LocalsMapped, Lowerable, DispatchLabelsFresh, Labelled;
  }

  /** A jump to a block of the function, taken on both sides. */
  lemma JumpHolds<P(!new), W(!new)>(
      func: Function, c: Cursor, sem: Sem<P, W>, live: LiveAt, s: Config<P, W>, t: Task<P, W>, target: Label)
    requires s.At? && s.b < |func.blocks| && s.j == |func.blocks[s.b].insts| && LiveTerm(func, live, s.b)
    requires Matches(func, c, sem, live, s, t) && target in Successors(func.blocks[s.b])
    requires !Goto<P, W>(func, target, s.regs, s.w).Stuck?
    requires Reaches(Resume(func, c), sem, LayoutFor(func), t, Running(target, 0, t.frame, s.w))
    ensures Follows(func, c, sem, live, Goto(func, target, s.regs, s.w), t)
  {
    hide Reaches, Resume, Addresses, FindBlock, Successors;
    FindBlockSound(func.blocks, target);
    var b := FindBlock(func.blocks, target).value;
    assert LocOf(func, b, 0) == Loc(target, 0);
    FollowsAt(func, c, sem, live, Goto(func, target, s.regs, s.w), t, Running(target, 0, t.frame, s.w));
  }

  lemma TermStep<P(!new), W(!new)>(
      func: Function, c: Cursor, sem: Sem<P, W>, live: LiveAt, s: Config<P, W>, t: Task<P, W>)
    requires Built(func, c) && NothingCrossesAwaits(func, live) && s.At? && Matches(func, c, sem, live, s, t)
    requires s.j == |func.blocks[s.b].insts| && !Step(func, sem, s).Stuck?
    ensures Follows(func, c, sem, live, Step(func, sem, s), t)
  {
    hide Built, Reaches, Resume, Addresses, EndsAt, ReadyLaid, Exec, Advance, LocalsMapped, NothingCrossesAwaits,
      LocOf, Ends, MapOp, Goto, Holds;
    TermFacts(func, c, live, s.b);
    var res, layout := Resume(func, c), LayoutFor(func);
    var loc := LocOf(func, s.b, s.j);
    match func.blocks[s.b].terminator
    case Some(Br(target)) =>
      EndStands(func, c, loc, Some(Br(target)));
      RunEnd(res, sem, layout, t.name, t.pos, t.frame, s.w, Some(Br(target)));
      JumpHolds(func, c, sem, live, s, t, target);
    case Some(CondBr(condition, trueTarget, falseTarget)) =>
      var term := Some(CondBr(MapOp(condition, MapId(c.valMap)), trueTarget, falseTarget));
      EndStands(func, c, loc, term);
      RunEnd(res, sem, layout, t.name, t.pos, t.frame, s.w, term);
      EvalOpHolds(func, c, sem, live(s.b, s.j), s.regs, t.frame, condition);
      var p := EvalOp(func, sem, s.regs, condition).value;
      JumpHolds(func, c, sem, live, s, t, if sem.truth(p) then trueTarget else falseTarget);
    case Some(Ret(value)) =>
      if value.Some? {
        EvalOpHolds(func, c, sem, live(s.b, s.j), s.regs, t.frame, value.value);
      }
      ReturnStep(func, c, sem, live, s, t, value);
    case _ =>
  }

  lemma ReturnStep<P(!new), W(!new)>(
      func: Function, c: Cursor, sem: Sem<P, W>, live: LiveAt, s: Config<P, W>, t: Task<P, W>, value: Option<Operand>)
    requires Built(func, c) && s.At? && Matches(func, c, sem, live, s, t) && s.j == |func.blocks[s.b].insts|
    requires func.blocks[s.b].terminator == Some(Ret(value)) && TermLaid(func, c, s.b)
    requires value.Some? ==>
      && EvalOp(func, sem, s.regs, value.value).Some?
      && ValueOf(sem, t.frame, MapOp(value.value, MapId(c.valMap)))
        == Some(Prog(EvalOp(func, sem, s.regs, value.value).value))
    ensures Follows(func, c, sem, live, Step(func, sem, s), t)
  {
    hide Built, Reaches, Resume, Addresses, CodeAt, EndsAt, Exec, ExecCode, Advance, LocOf, Stands, Ends, MapOp, MapId,
      FirstId, ReadyCode, EvalOp;
    var res, layout := Resume(func, c), LayoutFor(func);
    var loc, mapped := LocOf(func, s.b, s.j), MapValue(value, MapId(c.valMap));
    var base: nat :| ReadyLaid(func, c, loc, base, mapped);
    var code := ReadyCode(base, mapped);
    EnvAddress(func, sem, t.frame);
    ReadyRuns(sem, layout, t.frame, s.w, base, mapped);
    var f := ExecCode(sem, layout, t.frame, s.w, base, code).value.0;
    CodeStands(func, c, loc, base, code);
    RunCode(res, sem, layout, t.name, t.pos, t.frame, s.w, base, code);
    var term := Some(Ret(Some(Value(base + |code| - 1))));
    EndStands(func, c, Loc(loc.name, loc.pos + |code|), term);
    RunEnd(res, sem, layout, loc.name, loc.pos + |code|, f, s.w, term);
    var u := ExecJump(sem, f, s.w, term);
    ReachesTrans(res, sem, layout, t, Running(loc.name, loc.pos + |code|, f, s.w), u);
    FollowsAt(func, c, sem, live, Step(func, sem, s), t, u);
  }

  // ----- whole runs ----------------------------------------------------------------------

  lemma OneStep<P(!new), W(!new)>(
      func: Function, c: Cursor, sem: Sem<P, W>, live: LiveAt, s: Config<P, W>, t: Task<P, W>)
    requires Built(func, c) && NothingCrossesAwaits(func, live) && Matches(func, c, sem, live, s, t)
    requires !Step(func, sem, s).Stuck?
    ensures Follows(func, c, sem, live, Step(func, sem, s), t)
  {
    hide Built, Reaches, Resume, Holds, LocOf, ExecInst, ExecTerm, NothingCrossesAwaits;
    if !s.At? {
      ReachesSelf(Resume(func, c), sem, LayoutFor(func), t);
      FollowsAt(func, c, sem, live, s, t, t);
    } else if s.j == |func.blocks[s.b].insts| {
      TermStep(func, c, sem, live, s, t);
    } else if InstAt(func, s.b, s.j).Alloca? {
      LocalStep(func, c, sem, live, s, t);
    } else if InstAt(func, s.b, s.j).Await? {
      AwaitStep(func, c, sem, live, s, t);
    } else {
      GeneralStep(func, c, sem, live, s, t);
    }
  }

  /** The polled task that kickoff leaves behind. */
  function Kicked<P, W>(sem: Sem<P, W>, w: W): Task<P, W> {
    Suspended(Header(0, 0, sem.nul), w)
  }

  function Start<P, W>(w: W): Config<P, W> {
    At(0, 0, map[], w)
  }

  lemma Begins<P(!new), W(!new)>(func: Function, c: Cursor, sem: Sem<P, W>, live: LiveAt, w: W)
    requires Built(func, c) && func.blocks != []
    ensures Follows(func, c, sem, live, Start(w), Kicked(sem, w))
  {
    hide Built, Reaches, Resume, Addresses, LayoutFor;
    PollEnters(func, c, sem, Header(0, 0, sem.nul), w);
    var f :| Addresses(func, sem, f) && f.header == Header(0, 0, sem.nul)
      && Reaches(Resume(func, c), sem, LayoutFor(func), Kicked(sem, w), Running(EntryLabel(func), 0, f, w));
    assert LocOf(func, 0, 0) == Loc(EntryLabel(func), 0);
    FollowsAt(func, c, sem, live, Start(w), Kicked(sem, w), Running(EntryLabel(func), 0, f, w));
  }

  /** However far the function runs, over any number of awaits and loops, the polled task runs to
      the matching state: the same instructions have acted on the world in the same order. */
  lemma {:induction false} Simulates<P(!new), W(!new)>(
      func: Function, c: Cursor, sem: Sem<P, W>, live: LiveAt, w: W, n: nat)
    requires Built(func, c) && func.blocks != [] && NothingCrossesAwaits(func, live)
    requires !Steps(func, sem, Start(w), n).Stuck?
    ensures Follows(func, c, sem, live, Steps(func, sem, Start(w), n), Kicked(sem, w))
  {
    hide Built, Reaches, Resume, Matches, NothingCrossesAwaits, Step;
    var res, layout := Resume(func, c), LayoutFor(func);
    if n == 0 {
      Begins(func, c, sem, live, w);
    } else {
      var s := Steps(func, sem, Start(w), n - 1);
      StuckStays(func, sem, s);
      Simulates(func, c, sem, live, w, n - 1);
      var t :| Reaches(res, sem, layout, Kicked(sem, w), t) && Matches(func, c, sem, live, s, t);
      OneStep(func, c, sem, live, s, t);
      var u :| Reaches(res, sem, layout, t, u) && Matches(func, c, sem, live, Step(func, sem, s), u);
      ReachesTrans(res, sem, layout, Kicked(sem, w), t, u);
      FollowsAt(func, c, sem, live, Step(func, sem, s), Kicked(sem, w), u);
    }
  }

  lemma StuckStays<P, W>(func: Function, sem: Sem<P, W>, s: Config<P, W>)
    ensures s.Stuck? ==> Step(func, sem, s).Stuck?
  {}

  /** The lowered function, polled until it is ready, returns what the function returns and leaves
      the world as the function leaves it. */
  lemma LoweringPreservesMeaning<P(!new), W(!new)>(
      func: Function, c: Cursor, sem: Sem<P, W>, live: LiveAt, w: W, n: nat, value: Option<P>, w': W)
    requires Built(func, c) && func.blocks != [] && NothingCrossesAwaits(func, live)
    requires Steps(func, sem, Start(w), n) == Done(value, w')
    ensures exists h: Header<P> :: h.state == FUTURE_STATE_COMPLETED
                                     && Reaches(Resume(func, c), sem, LayoutFor(func), Kicked(sem, w),
                                       Ready(value, h, w'))
  {
    hide Built, Reaches, Resume, Steps, NothingCrossesAwaits;
    Simulates(func, c, sem, live, w, n);
    var t :| Reaches(Resume(func, c), sem, LayoutFor(func), Kicked(sem, w), t)
      && Matches(func, c, sem, live, Done(value, w'), t);
    assert t == Ready(value, t.header, w');
  }
}
