/** What a run of the generated drop function drops and frees, for every stored state. */
module AsyncDropCorrectness {
  import opened Wrappers
  import opened Mvir
  import opened Decimal
  import opened Places
  import M = AsyncMachine
  import opened AsyncLowering
  import opened AsyncSimulation
  import opened AsyncDrop
  import Suspension
  import MoveState

  datatype DTask = DAt(name: Label, pos: nat, s: DState) | DDone(events: seq<Event>) | DCrashed

  ghost function DJump(s: DState, term: Option<Terminator>): DTask {
    match term
    case Some(Br(target)) => DAt(target, 0, s)
    case Some(CondBr(condition, trueTarget, falseTarget)) =>
      (match DReg(s, condition)
       case Some(Flag(flag)) => DAt(if flag then trueTarget else falseTarget, 0, s)
       case _ => DCrashed)
    case Some(Ret(None)) => DDone(s.events)
    case _ => DCrashed
  }

  ghost function DAdvance(fn: Function, env: DropEnv, st: Stored, t: DTask): DTask {
    match t
    case DAt(name, pos, s) =>
      (match M.FindBlock(fn.blocks, name)
       case None => DCrashed
       case Some(i) =>
         if i >= |fn.blocks| then DCrashed
         else if pos < |fn.blocks[i].insts| then
           var id := fn.blocks[i].insts[pos];
           if id >= |fn.values| then DCrashed
           else
             (match DExec(env.fields, st, s, id, fn.values[id])
              case Some(s') => DAt(name, pos + 1, s')
              case None => DCrashed)
         else DJump(s, fn.blocks[i].terminator))
    case _ => t
  }

  ghost function DAdvances(fn: Function, env: DropEnv, st: Stored, t: DTask, n: nat): DTask
    decreases n
  {
    if n == 0 then t else DAdvances(fn, env, st, DAdvance(fn, env, st, t), n - 1)
  }

  ghost predicate DReaches(fn: Function, env: DropEnv, st: Stored, t: DTask, u: DTask) {
    exists n: nat :: DAdvances(fn, env, st, t, n) == u
  }

  lemma {:induction false} DAdvancesAdd(fn: Function, env: DropEnv, st: Stored, t: DTask, n: nat, m: nat)
    ensures DAdvances(fn, env, st, t, n + m) == DAdvances(fn, env, st, DAdvances(fn, env, st, t, n), m)
    decreases n
  {
    hide DAdvance;
    if n > 0 {
      DAdvancesAdd(fn, env, st, DAdvance(fn, env, st, t), n - 1, m);
    }
  }

  lemma DReachesTrans(fn: Function, env: DropEnv, st: Stored, t: DTask, u: DTask, v: DTask)
    requires DReaches(fn, env, st, t, u) && DReaches(fn, env, st, u, v)
    ensures DReaches(fn, env, st, t, v)
  {
    hide DAdvances;
    var n: nat :| DAdvances(fn, env, st, t, n) == u;
    var m: nat :| DAdvances(fn, env, st, u, m) == v;
    DAdvancesAdd(fn, env, st, t, n, m);
  }

  lemma DReachesStep(fn: Function, env: DropEnv, st: Stored, t: DTask)
    ensures DReaches(fn, env, st, t, DAdvance(fn, env, st, t))
  {
    hide DAdvance;
    var u := DAdvance(fn, env, st, t);
    assert DAdvances(fn, env, st, u, 0) == u;
    assert DAdvances(fn, env, st, t, 1) == u;
  }

  lemma {:induction false} DRunCode(
      fn: Function, env: DropEnv, st: Stored, name: Label, pos: nat, s: DState, base: nat, code: seq<Instruction>)
    requires Stands(fn, name, pos, base, code) && DExecCode(env.fields, st, s, base, code).Some?
    ensures DReaches(fn, env, st, DAt(name, pos, s),
      DAt(name, pos + |code|, DExecCode(env.fields, st, s, base, code).value))
    decreases |code|
  {
    hide DExec, Stands, DAdvance, DReaches;
    if code == [] {
      DReachesSelf(fn, env, st, DAt(name, pos, s));
    } else {
      var s' := DExec(env.fields, st, s, base, code[0]).value;
      DAdvanceOne(fn, env, st, name, pos, s, base, code);
      DReachesStep(fn, env, st, DAt(name, pos, s));
      StandsTail(fn, name, pos, base, code);
      DRunCode(fn, env, st, name, pos + 1, s', base + 1, code[1..]);
      DReachesTrans(fn, env, st, DAt(name, pos, s), DAt(name, pos + 1, s'),
        DAt(name, pos + |code|, DExecCode(env.fields, st, s, base, code).value));
    }
  }

  lemma DReachesSelf(fn: Function, env: DropEnv, st: Stored, t: DTask)
    ensures DReaches(fn, env, st, t, t)
  {
    assert DAdvances(fn, env, st, t, 0) == t;
  }

  lemma DAdvanceOne(
      fn: Function, env: DropEnv, st: Stored, name: Label, pos: nat, s: DState, base: nat, code: seq<Instruction>)
    requires Stands(fn, name, pos, base, code) && code != [] && DExec(env.fields, st, s, base, code[0]).Some?
    ensures DAdvance(fn, env, st, DAt(name, pos, s))
      == DAt(name, pos + 1, DExec(env.fields, st, s, base, code[0]).value)
  {
    hide DExec;
    var block := fn.blocks[M.FindBlock(fn.blocks, name).value];
    assert block.insts[pos] == base && fn.values[base] == fn.values[base..base + |code|][0] == code[0];
  }

  /** A block of the drop function runs from its first instruction to its terminator. */
  lemma BlockRuns(
      fn: Function, c: Cursor, env: DropEnv, plan: Plan, st: Stored, l: DropLabel, base: nat, code: seq<Instruction>,
      term: Option<Terminator>, s: DState, s': DState)
    requires BuiltDrop(fn, c, env, plan) && BlockLaid(c, l, base, code, term)
    requires DExecCode(env.fields, st, s, base, code) == Some(s')
    ensures DReaches(fn, env, st, DAt(LabelName(l), 0, s), DJump(s', term))
  {
    hide DExec, DExecCode, DReaches, DJump, LabelName, StatesLaid, FreeLaid, EntryCode, Branch;
    DropStands(fn, c, l, base, code, term);
    DRunCode(fn, env, st, LabelName(l), 0, s, base, code);
    EndRuns(fn, env, st, LabelName(l), |code|, s', term);
    DReachesTrans(fn, env, st, DAt(LabelName(l), 0, s), DAt(LabelName(l), |code|, s'), DJump(s', term));
  }

  lemma EndRuns(fn: Function, env: DropEnv, st: Stored, name: Label, pos: nat, s: DState, term: Option<Terminator>)
    requires Ends(fn, name, pos, term)
    ensures DReaches(fn, env, st, DAt(name, pos, s), DJump(s, term))
  {
    hide DExec, DReaches, DJump;
    DReachesStep(fn, env, st, DAt(name, pos, s));
  }

  lemma DropStands(fn: Function, c: Cursor, l: DropLabel, base: nat, code: seq<Instruction>, term: Option<Terminator>)
    requires fn == Function(1, c.done, c.values) && !c.isOpen && DistinctLabels(c.done)
      && BlockLaid(c, l, base, code, term)
    ensures Stands(fn, LabelName(l), 0, base, code) && Ends(fn, LabelName(l), |code|, term)
  {
    hide LabelName, M.FindBlock;
    var name := LabelName(l);
    var i :| 0 <= i < |Blocks(c)| && Blocks(c)[i].name == name && CodeIn(c.values, Blocks(c)[i], 0, base, code);
    M.FindBlockFinds(c.done, i);
    var j :| 0 <= j < |c.done| && c.done[j] == BasicBlock(name, c.done[j].insts, term) && |c.done[j].insts| == |code|;
    M.FindBlockFinds(c.done, j);
  }

  // ----- what is expected ----------------------------------------------------------------

  /** What is to be dropped in state `k`: the awaited future, when there is one stored, and the
      places alive there. */
  function CleanupEvents(env: DropEnv, plan: Plan, child: bool, k: nat): seq<Event>
    requires k < |plan.live| && k < |plan.children|
  {
    (if k > 0 && child then [DropChild(plan.children[k])] else []) + PlacesEvents(env, plan.live[k])
  }

  /** A completed task, and one in a state that is none of its own, has nothing to drop. */
  ghost function Expected(env: DropEnv, plan: Plan, st: Stored): seq<Event>
    requires PlanOk(plan)
  {
    (if 0 <= st.state <= plan.awaits then CleanupEvents(env, plan, st.child, st.state) else []) + [FreeEnv]
  }

  /** The environment is at hand and the state has been read. */
  ghost predicate AtHand(s: DState, st: Stored) {
    DReg(s, Value(0)) == Some(EnvPtr) && DReg(s, Value(2)) == Some(State(st.state))
  }

  lemma FreeRuns(fn: Function, c: Cursor, env: DropEnv, plan: Plan, st: Stored, s: DState)
    requires BuiltDrop(fn, c, env, plan) && DReg(s, Value(0)) == Some(EnvPtr)
    ensures DReaches(fn, env, st, DAt(LabelName(FreeBlock), 0, s), DDone(s.events + [FreeEnv]))
  {
    hide DReaches, LabelName, BlockLaid, StatesLaid, DExecCode, EntryCode, Branch;
    var base: nat :| base >= 4 && BlockLaid(c, FreeBlock, base, [HeapFree(Value(0))], Some(Ret(None)));
    var s' := s.(events := s.events + [FreeEnv]);
    DOneRuns(env.fields, st, s, base, HeapFree(Value(0)));
    BlockRuns(fn, c, env, plan, st, FreeBlock, base, [HeapFree(Value(0))], Some(Ret(None)), s, s');
  }

  lemma DropsRun(
      fn: Function, c: Cursor, env: DropEnv, plan: Plan, st: Stored, s: DState, l: DropLabel, places: seq<Place>,
      base: nat)
    requires BuiltDrop(fn, c, env, plan) && FieldsApart(env.fields) && DReg(s, Value(0)) == Some(EnvPtr)
    requires DropsLaid(c, env, l, places, base)
    ensures DReaches(fn, env, st, DAt(LabelName(l), 0, s), DDone(s.events + PlacesEvents(env, places) + [FreeEnv]))
  {
    hide DReaches, LabelName, BlockLaid, BuiltDrop, DExecCode, PlacesCode, PlacesEvents, FieldsApart;
    PlacesRun(env, st, s, base, places);
    var s' := DExecCode(env.fields, st, s, base, PlacesCode(env, base, places)).value;
    BlockRuns(fn, c, env, plan, st, l, base, PlacesCode(env, base, places), Goto(FreeBlock), s, s');
    FreeRuns(fn, c, env, plan, st, s');
    DReachesTrans(fn, env, st, DAt(LabelName(l), 0, s), DAt(LabelName(FreeBlock), 0, s'), DDone(s'.events + [FreeEnv]));
  }

  lemma CheckRuns(fields: map<ValueId, nat>, st: Stored, s: DState, base: nat)
    requires DReg(s, Value(0)) == Some(EnvPtr) && base > 0
    ensures DExecCode(fields, st, s, base, CheckCode(base))
      == Some(DSet(DSet(DSet(DSet(s, base, ChildPtr), base + 1, Child), base + 2, NullPtr), base + 3, Flag(st.child)))
  {
    var code := CheckCode(base);
    var s1 := DSet(s, base, ChildPtr);
    var s2 := DSet(s1, base + 1, Child);
    var s3 := DSet(s2, base + 2, NullPtr);
    assert DExec(fields, st, s, base, code[0]) == Some(s1);
    assert DExec(fields, st, s1, base + 1, code[1]) == Some(s2);
    assert DExec(fields, st, s2, base + 2, code[2]) == Some(s3);
    FourRun(fields, st, s, base, code, s1, s2, s3);
  }

  lemma FourRun(
      fields: map<ValueId, nat>, st: Stored, s: DState, base: nat, code: seq<Instruction>, s1: DState, s2: DState,
      s3: DState)
    requires |code| == 4
    requires DExec(fields, st, s, base, code[0]) == Some(s1)
    requires DExec(fields, st, s1, base + 1, code[1]) == Some(s2)
    requires DExec(fields, st, s2, base + 2, code[2]) == Some(s3)
    ensures DExecCode(fields, st, s, base, code) == DExec(fields, st, s3, base + 3, code[3])
  {
    hide DExec;
    DOneRuns(fields, st, s3, base + 3, code[3]);
    assert code[1..][0] == code[1] && code[1..][1..] == code[2..];
    assert code[2..][0] == code[2] && code[2..][1..] == [code[3]];
    assert DExecCode(fields, st, s2, base + 2, code[2..]) == DExecCode(fields, st, s3, base + 3, [code[3]]);
    assert DExecCode(fields, st, s1, base + 1, code[1..]) == DExecCode(fields, st, s2, base + 2, code[2..]);
  }

  /** The cleanup of state `k`, from its first block. */
  lemma CleanupRuns(fn: Function, c: Cursor, env: DropEnv, plan: Plan, st: Stored, s: DState, k: nat, base: nat)
    requires BuiltDrop(fn, c, env, plan) && FieldsApart(env.fields) && k <= plan.awaits
      && DReg(s, Value(0)) == Some(EnvPtr)
    requires StateLaid(c, env, plan, k, base)
    ensures DReaches(fn, env, st, DAt(LabelName(StateOf(k)), 0, s),
                     DDone(s.events + CleanupEvents(env, plan, st.child, k) + [FreeEnv]))
  {
    hide DReaches, LabelName, BlockLaid, DispatchLaid, StatesLaid, FreeLaid, DropsLaid, PlacesEvents, DExecCode,
      CheckCode, FieldsApart, EntryCode;
    if k == 0 {
      DropsRun(fn, c, env, plan, st, s, StateOf(0), plan.live[0], base + 1);
      assert s.events + ([] + PlacesEvents(env, plan.live[0])) == s.events + PlacesEvents(env, plan.live[0]);
    } else {
      var b := base + 1;
      CheckRuns(env.fields, st, s, b);
      var s1 := DSet(DSet(DSet(DSet(s, b, ChildPtr), b + 1, Child), b + 2, NullPtr), b + 3, Flag(st.child));
      BlockRuns(fn, c, env, plan, st, StateOf(k), b, CheckCode(b), Branch(b + 3, ChildOf(k), LocalsOf(k)), s, s1);
      var drop := Drop(Value(b + 1), plan.children[k]);
      var s2 := if st.child then s1.(events := s1.events + [DropChild(plan.children[k])]) else s1;
      DropsRun(fn, c, env, plan, st, s2, LocalsOf(k), plan.live[k], base + 6);
      var end := DDone(s2.events + PlacesEvents(env, plan.live[k]) + [FreeEnv]);
      if st.child {
        DOneRuns(env.fields, st, s1, b + 4, drop);
        BlockRuns(fn, c, env, plan, st, ChildOf(k), b + 4, [drop], Goto(LocalsOf(k)), s1, s2);
        DReachesTrans(fn, env, st, DAt(LabelName(ChildOf(k)), 0, s1), DAt(LabelName(LocalsOf(k)), 0, s2), end);
      }
      var next := if st.child then ChildOf(k) else LocalsOf(k);
      DReachesTrans(fn, env, st, DAt(LabelName(StateOf(k)), 0, s), DAt(LabelName(next), 0, s1), end);
      EventsGrouped(s.events, if st.child then [DropChild(plan.children[k])] else [], PlacesEvents(env, plan.live[k]));
    }
  }

  lemma EventsGrouped(a: seq<Event>, b: seq<Event>, d: seq<Event>)
    ensures a + b + d == a + (b + d)
    ensures a + [] == a
  {}

  lemma EqRuns(fields: map<ValueId, nat>, st: Stored, s: DState, base: nat, k: int)
    requires AtHand(s, st)
    ensures DExecCode(fields, st, s, base, [EqTo(k)]) == Some(DSet(s, base, Flag(st.state == k)))
  {
    hide ParseInt, ToText;
    ParseOfText(k);
    DOneRuns(fields, st, s, base, EqTo(k));
  }

  /** From the dispatch of state `k` the run enters the cleanup of the stored state, if that is
      `k` or a later one, and otherwise goes on to free the environment. */
  lemma {:induction false} DispatchRuns(
      fn: Function, c: Cursor, env: DropEnv, plan: Plan, st: Stored, s: DState, k: nat)
    requires BuiltDrop(fn, c, env, plan) && FieldsApart(env.fields) && k <= plan.awaits && AtHand(s, st)
    ensures var events := if k <= st.state <= plan.awaits then CleanupEvents(env, plan, st.child, st.state) else [];
            DReaches(fn, env, st, DAt(LabelName(Dispatch(k)), 0, s), DDone(s.events + events + [FreeEnv]))
    decreases plan.awaits - k
  {
    hide DReaches, LabelName, BlockLaid, FreeLaid, DropsLaid, ChildLaid, CleanupEvents, DExecCode, EqTo, FieldsApart,
      EntryCode;
    assert StateIsLaid(c, env, plan, k);
    var base: nat :| StateLaid(c, env, plan, k, base);
    EqRuns(env.fields, st, s, base, k);
    var s' := DSet(s, base, Flag(st.state == k));
    var term := Branch(base, StateOf(k), NextLabel(plan, k));
    BlockRuns(fn, c, env, plan, st, Dispatch(k), base, [EqTo(k)], term, s, s');
    var start := DAt(LabelName(Dispatch(k)), 0, s);
    if st.state == k {
      CleanupRuns(fn, c, env, plan, st, s', k, base);
      DReachesTrans(fn, env, st, start, DAt(LabelName(StateOf(k)), 0, s'),
        DDone(s.events + CleanupEvents(env, plan, st.child, k) + [FreeEnv]));
    } else if k < plan.awaits {
      DispatchRuns(fn, c, env, plan, st, s', k + 1);
      var events := if k + 1 <= st.state <= plan.awaits then CleanupEvents(env, plan, st.child, st.state) else [];
      DReachesTrans(fn, env, st, start, DAt(LabelName(Dispatch(k + 1)), 0, s'), DDone(s.events + events + [FreeEnv]));
    } else {
      FreeRuns(fn, c, env, plan, st, s');
      DReachesTrans(fn, env, st, start, DAt(LabelName(FreeBlock), 0, s'), DDone(s.events + [FreeEnv]));
      EventsGrouped(s.events, [], [FreeEnv]);
    }
  }

  function Nothing(): DState {
    DState(map[], [])
  }

  lemma EntryRuns(fields: map<ValueId, nat>, st: Stored)
    ensures var r := DExecCode(fields, st, Nothing(), 0, EntryCode());
            && r.Some? && r.value.events == [] && AtHand(r.value, st)
            && DReg(r.value, Value(3)) == Some(Flag(st.state == FUTURE_STATE_COMPLETED))
  {
    hide ParseInt, ToText;
    ParseOfText(FUTURE_STATE_COMPLETED);
    var code := EntryCode();
    var s1 := DSet(Nothing(), 0, EnvPtr);
    var s2 := DSet(s1, 1, StatePtr);
    var s3 := DSet(s2, 2, State(st.state));
    assert DExec(fields, st, Nothing(), 0, code[0]) == Some(s1);
    assert DExec(fields, st, s1, 1, code[1]) == Some(s2);
    assert DExec(fields, st, s2, 2, code[2]) == Some(s3);
    FourRun(fields, st, Nothing(), 0, code, s1, s2, s3);
  }

  /** Whatever state is stored, a run of the drop function ends, having dropped what that state
      calls for and nothing else and then freed the environment, once. */
  lemma DropRuns(fn: Function, c: Cursor, env: DropEnv, plan: Plan, st: Stored)
    requires BuiltDrop(fn, c, env, plan) && FieldsApart(env.fields)
    ensures fn.blocks != []
    ensures DReaches(fn, env, st, DAt(fn.blocks[0].name, 0, Nothing()), DDone(Expected(env, plan, st)))
  {
    hide DReaches, LabelName, BlockLaid, FreeLaid, StatesLaid, CleanupEvents, DExecCode, EntryCode, FieldsApart;
    EntryRuns(env.fields, st);
    var s := DExecCode(env.fields, st, Nothing(), 0, EntryCode()).value;
    BlockRuns(fn, c, env, plan, st, Entry, 0, EntryCode(), Branch(3, FreeBlock, Dispatch(0)), Nothing(), s);
    var start := DAt(fn.blocks[0].name, 0, Nothing());
    if st.state == FUTURE_STATE_COMPLETED {
      FreeRuns(fn, c, env, plan, st, s);
      DReachesTrans(fn, env, st, start, DAt(LabelName(FreeBlock), 0, s), DDone([] + [FreeEnv]));
    } else {
      DispatchRuns(fn, c, env, plan, st, s, 0);
      var events := if 0 <= st.state <= plan.awaits then CleanupEvents(env, plan, st.child, st.state) else [];
      DReachesTrans(fn, env, st, start, DAt(LabelName(Dispatch(0)), 0, s), DDone([] + events + [FreeEnv]));
      assert [] + events == events;
    }
  }

  // ----- what that means for places ------------------------------------------------------

  ghost predicate Antichain(places: seq<Place>) {
    forall i, j :: 0 <= i < |places| && 0 <= j < |places| && i != j ==> !Ancestor(places[i], places[j])
  }

  /** Position `i` of `events` drops some place of `places`; later positions drop later ones. */
  lemma {:induction false} EventsArePlaces(env: DropEnv, places: seq<Place>, i: nat) returns (k: nat)
    requires i < |PlacesEvents(env, places)|
    ensures k < |places| && Dropped(env, places[k])
    ensures PlacesEvents(env, places)[i] == DropPlace(places[k], env.callee(DropType(env, places[k]).value, places[k]))
    ensures i == |PlacesEvents(env, places[..k])|
  {
    hide Dropped, DropType;
    var first := PlaceEvents(env, places[0]);
    if i < |first| {
      k := 0;
      assert places[..0] == [];
    } else {
      var j := EventsArePlaces(env, places[1..], i - |first|);
      k := j + 1;
      assert places[..k][1..] == places[1..][..j];
    }
  }

  lemma {:induction false} PlaceHasEvent(env: DropEnv, places: seq<Place>, k: nat)
    requires k < |places| && Dropped(env, places[k])
    ensures DropPlace(places[k], env.callee(DropType(env, places[k]).value, places[k])) in PlacesEvents(env, places)
  {
    hide Dropped, DropType;
    if k > 0 {
      PlaceHasEvent(env, places[1..], k - 1);
    }
  }

  /** With live places none of which lies within another, no run drops both a place and one it
      lies within, nor a place twice, nor the child or the environment.  What the child is to the
      places, `AsyncOwnership` says. */
  lemma NeverTwice(env: DropEnv, plan: Plan, st: Stored, i: nat, j: nat)
    requires PlanOk(plan) && forall k :: 0 <= k <= plan.awaits ==> Antichain(plan.live[k])
    requires i < |Expected(env, plan, st)| && j < |Expected(env, plan, st)| && i != j
    ensures var events := Expected(env, plan, st);
            events[i].DropPlace? && events[j].DropPlace? ==> !Ancestor(events[i].place, events[j].place)
    ensures !(Expected(env, plan, st)[i].FreeEnv? && Expected(env, plan, st)[j].FreeEnv?)
    ensures !(Expected(env, plan, st)[i].DropChild? && Expected(env, plan, st)[j].DropChild?)
  {
    hide Antichain, PlacesEvents, Ancestor;
    if 0 <= st.state <= plan.awaits {
      var places := plan.live[st.state];
      var head := if st.state > 0 && st.child then [DropChild(plan.children[st.state])] else [];
      var n := |PlacesEvents(env, places)|;
      PlacesOnly(env, places);
      if |head| <= i < |head| + n && |head| <= j < |head| + n {
        PlacesApart(env, places, i - |head|, j - |head|);
      }
    }
  }

  lemma PlacesOnly(env: DropEnv, places: seq<Place>)
    ensures forall i :: 0 <= i < |PlacesEvents(env, places)| ==> PlacesEvents(env, places)[i].DropPlace?
  {
    hide PlacesEvents;
    forall i | 0 <= i < |PlacesEvents(env, places)| ensures PlacesEvents(env, places)[i].DropPlace? {
      var k := EventsArePlaces(env, places, i);
    }
  }

  lemma PlacesApart(env: DropEnv, places: seq<Place>, i: nat, j: nat)
    requires Antichain(places) && i < |PlacesEvents(env, places)| && j < |PlacesEvents(env, places)| && i != j
    ensures PlacesEvents(env, places)[i].DropPlace? && PlacesEvents(env, places)[j].DropPlace?
    ensures !Ancestor(PlacesEvents(env, places)[i].place, PlacesEvents(env, places)[j].place)
  {
    hide PlacesEvents, Ancestor, Dropped;
    var k := EventsArePlaces(env, places, i);
    var l := EventsArePlaces(env, places, j);
  }

  /** The places found alive where the function suspends, listed in any order, are such places. */
  lemma SuspendedPlacesApart(sus: Suspension.SuspensionState, m: MoveState.PlaceMap, places: seq<Place>)
    requires Suspension.Describes(sus, m)
    requires forall i :: 0 <= i < |places| ==> places[i] in sus.live
    requires forall i, j :: 0 <= i < j < |places| ==> places[i] != places[j]
    ensures Antichain(places)
  {
    hide Suspension.Describes, Ancestor;
    forall i, j | 0 <= i < |places| && 0 <= j < |places| && i != j ensures !Ancestor(places[i], places[j]) {
      assert places[i] != places[j];
      if Ancestor(places[i], places[j]) {
        Suspension.LiveIsAntichain(sus, m, places[i], places[j]);
      }
    }
  }

  /** A place that is explicitly live where the function suspends lies within one that the cleanup
      drops, if the code can reach that one and it needs dropping. */
  lemma LivePlaceDropped(
      env: DropEnv, plan: Plan, child: bool, k: nat, sus: Suspension.SuspensionState, m: MoveState.PlaceMap, p: Place)
      returns (q: Place)
    requires PlanOk(plan) && k <= plan.awaits && Suspension.Describes(sus, m)
    requires forall place :: place in plan.live[k] <==> place in sus.live
    requires p in m && m[p] == MoveState.Live
    ensures Ancestor(q, p) && q in plan.live[k]
    ensures Dropped(env, q) ==>
      DropPlace(q, env.callee(DropType(env, q).value, q)) in CleanupEvents(env, plan, child, k)
  {
    hide Dropped, DropType, PlacesEvents;
    q := Suspension.LiveCovers(sus, m, p);
    var i :| 0 <= i < |plan.live[k]| && plan.live[k][i] == q;
    if Dropped(env, q) { PlaceHasEvent(env, plan.live[k], i); }
  }
}
