/** Uses of what has been handed over, from one instruction to another along any walk. */
module HandOvers {
  import opened Wrappers
  import opened Mvir
  import opened Places
  import opened MoveState
  import opened MoveTransfer
  import opened ForwardDataflow
  import opened MoveSoundness
  import opened MoveReports
  import opened MoveRoles
  import opened MoveMeaning
  import opened BorrowCheckMoves

  // ----- along a walk, instruction by instruction ----------------------------------------

  /** The instructions of all blocks of a walk but its last. */
  ghost function WalkInsts(func: Function, path: seq<Label>): seq<ValueId>
    requires IsPath(func, path)
    decreases |path|
  {
    if |path| == 1 then []
    else
      var init := path[..|path| - 1];
      assert IsPath(func, init);
      assert Edge(func, path[|path| - 2], path[|path| - 1]);
      WalkInsts(func, init) + BlockNamed(func, init[|init| - 1]).insts
  }

  /** Instruction `id` hands over `p` or what it lies within. */
  ghost predicate TakesAway(env: Env, id: ValueId, p: Place) {
    id < |env.func.values| && exists q :: IsGiven(env, env.func.values[id], q) && Ancestor(q, p)
  }

  /** Instruction `id` fills `p` or what it lies within, or makes its slot. */
  ghost predicate GivesBack(env: Env, id: ValueId, p: Place) {
    id < |env.func.values| && (Refilled(env, env.func.values[id], p) || (IsSlot(env.func.values[id]) && p.local == id))
  }

  /** Among these instructions one takes `p` away, and neither it nor a later one gives it back. */
  ghost predicate TakenBy(env: Env, insts: seq<ValueId>, p: Place, n: nat) {
    n < |insts| && TakesAway(env, insts[n], p) && forall t :: n <= t < |insts| ==> !GivesBack(env, insts[t], p)
  }

  lemma KeptBack(env: Env, id: ValueId, p: Place)
    requires !GivesBack(env, id, p)
    ensures forall act :: act in InstActions(env, id) ==> !Revives(act, p)
  {
    hide ActsAs, IsGiven, IsRead, IsFilled, IsDropped, InstActions;
    if id >= |env.func.values| {
      NothingDone(env, id);
    } else {
      forall act | act in InstActions(env, id) ensures !Revives(act, p) {
        Form(act);
        SlotOf(env, id, act);
      }
    }
  }

  lemma NothingDone(env: Env, id: ValueId)
    requires id >= |env.func.values|
    ensures InstActions(env, id) == []
  {}

  /** Only a slot is allocated, and only what is filled is made live. */
  lemma SlotOf(env: Env, id: ValueId, act: Action)
    requires id < |env.func.values| && act in InstActions(env, id)
    ensures act.Allocate? ==> IsSlot(env.func.values[id]) && act.place == Place(id, [])
    ensures act.MarkLive? ==> IsFilled(env, env.func.values[id], act.place)
  {
    hide InstActions, IsGiven, IsRead, IsFilled, IsDropped;
    ActionsFollowRoles(env, id);
    Form(act);
  }

  lemma {:induction false} NothingRevived(start: bool, acts: seq<Action>, p: Place)
    requires forall act :: act in acts ==> !Revives(act, p)
    ensures start ==> GoneAfter(start, acts, p)
    decreases |acts|
  {
    if acts != [] {
      assert acts[|acts| - 1] in acts;
      NothingRevived(start, acts[..|acts| - 1], p);
    }
  }

  lemma TakenHere(env: Env, id: ValueId, p: Place)
    requires TakesAway(env, id, p) && !GivesBack(env, id, p)
    ensures GoneAfter(false, InstActions(env, id), p)
  {
    hide InstActions, IsGiven, IsRead, IsFilled, IsDropped, Ancestor;
    var acts := InstActions(env, id);
    ActionsFollowRoles(env, id);
    KeptBack(env, id, p);
    var q :| IsGiven(env, env.func.values[id], q) && Ancestor(q, p);
    var k :| 0 <= k < |acts| && acts[k] == MarkMoved(q);
    assert forall t :: 0 <= t < |acts| ==> acts[t] in acts;
    GoneAfterMeans(acts, p);
  }

  lemma {:induction false} InstsConcat(env: Env, a: seq<ValueId>, b: seq<ValueId>)
    ensures InstsActions(env, a + b) == InstsActions(env, a) + InstsActions(env, b)
  {
    hide InstActions;
    if a == [] {
      assert a + b == b;
    } else {
      assert (a + b)[1..] == a[1..] + b;
      InstsConcat(env, a[1..], b);
    }
  }

  /** Instructions that give nothing back leave what is gone gone. */
  lemma {:induction false} KeptGone(env: Env, insts: seq<ValueId>, p: Place, start: bool)
    requires forall t :: 0 <= t < |insts| ==> !GivesBack(env, insts[t], p)
    ensures start ==> GoneAfter(start, InstsActions(env, insts), p)
  {
    hide InstActions, GoneAfter, GivesBack;
    if insts == [] {
      NoneGone(env, p, start);
    } else {
      KeptBack(env, insts[0], p);
      NothingRevived(start, InstActions(env, insts[0]), p);
      GoneAfterConcat(start, InstActions(env, insts[0]), InstsActions(env, insts[1..]), p);
      KeptGone(env, insts[1..], p, GoneAfter(start, InstActions(env, insts[0]), p));
    }
  }

  lemma NoneGone(env: Env, p: Place, start: bool)
    ensures GoneAfter(start, InstsActions(env, []), p) == start
  {}

  lemma {:induction false} TakenGone(env: Env, insts: seq<ValueId>, p: Place, n: nat, start: bool)
    requires TakenBy(env, insts, p, n)
    ensures GoneAfter(start, InstsActions(env, insts), p)
    decreases n
  {
    hide InstActions, GoneAfter, GivesBack, TakesAway;
    var first, rest := InstActions(env, insts[0]), insts[1..];
    GoneAfterConcat(start, first, InstsActions(env, rest), p);
    var g := GoneAfter(start, first, p);
    if n == 0 {
      TakenHere(env, insts[0], p);
      GoneAfterRises(start, first, p);
      KeptGone(env, rest, p, g);
    } else {
      TakenGone(env, rest, p, n - 1, g);
    }
  }

  /** Terminators give nothing back. */
  lemma TermKeepsGone(env: Env, term: Terminator, p: Place, start: bool)
    ensures start ==> GoneAfter(start, TermActions(env, term), p)
  {
    hide TermActions;
    TermFollowsRoles(env, term);
    NothingRevived(start, TermActions(env, term), p);
  }

  lemma BlockKeepsGone(env: Env, block: BasicBlock, p: Place, start: bool)
    requires GoneAfter(start, InstsActions(env, block.insts), p)
    ensures GoneAfter(start, BlockActions(env, block), p)
  {
    hide GoneAfter;
    var insts := InstsActions(env, block.insts);
    match block.terminator
    case Some(term) =>
      GoneAfterConcat(start, insts, TermActions(env, term), p);
      TermKeepsGone(env, term, p, GoneAfter(start, insts, p));
    case None => assert BlockActions(env, block) == insts;
  }

  /** What the instructions of the walk so far take away the replay of its actions finds gone. */
  lemma {:induction false} WalkTakes(env: Env, path: seq<Label>, insts: seq<ValueId>, p: Place, n: nat)
    requires IsPath(env.func, path) && TakenBy(env, WalkInsts(env.func, path) + insts, p, n)
    ensures GoneAfter(false, Trace(env, path) + InstsActions(env, insts), p)
    decreases |path|
  {
    hide GoneAfter, GivesBack, TakesAway, InstsActions, IsGiven;
    var walked := WalkInsts(env.func, path);
    var all := walked + insts;
    GoneAfterConcat(false, Trace(env, path), InstsActions(env, insts), p);
    assert forall t :: 0 <= t < |insts| ==> insts[t] == all[|walked| + t];
    if n >= |walked| {
      assert TakenBy(env, insts, p, n - |walked|);
      TakenGone(env, insts, p, n - |walked|, GoneAfter(false, Trace(env, path), p));
    } else {
      WalkTakesBefore(env, path, p, n, all);
      KeptGone(env, insts, p, true);
    }
  }

  lemma {:induction false} WalkTakesBefore(env: Env, path: seq<Label>, p: Place, n: nat, all: seq<ValueId>)
    requires IsPath(env.func, path) && WalkInsts(env.func, path) <= all && n < |WalkInsts(env.func, path)|
    requires TakenBy(env, all, p, n)
    ensures GoneAfter(false, Trace(env, path), p)
    decreases |path|
  {
    hide GoneAfter, GivesBack, TakesAway, InstsActions, BlockActions, IsGiven;
    var init := path[..|path| - 1];
    assert IsPath(env.func, init);
    assert Edge(env.func, path[|path| - 2], path[|path| - 1]);
    var block := BlockNamed(env.func, init[|init| - 1]);
    var walked := WalkInsts(env.func, init);
    var upTo := walked + block.insts;
    assert WalkInsts(env.func, path) == upTo;
    assert forall t :: 0 <= t < |upTo| ==> upTo[t] == all[t];
    assert forall t :: 0 <= t < |block.insts| ==> block.insts[t] == all[|walked| + t];
    var g := GoneAfter(false, Trace(env, init), p);
    GoneAfterConcat(false, Trace(env, init), BlockActions(env, block), p);
    if n >= |walked| {
      assert TakenBy(env, block.insts, p, n - |walked|);
      TakenGone(env, block.insts, p, n - |walked|, g);
    } else {
      WalkTakesBefore(env, init, p, n, all);
      KeptGone(env, block.insts, p, g);
    }
    BlockKeepsGone(env, block, p, g);
  }

  // ----- reported ------------------------------------------------------------------------

  /** A walk from the entry to instruction `j` of block `b`, which reads `p` or takes it out of a
      larger place; the `n`-th instruction met on the way takes `p` away, and nothing since then
      gives it back. */
  ghost predicate UseAfterHandOver(env: Env, path: seq<Label>, b: nat, j: nat, p: Place, n: nat) {
    && b < |env.func.blocks| && j < |env.func.blocks[b].insts|
    && var block := env.func.blocks[b];
    && IsPathBetween(env.func, path, env.func.blocks[0].name, block.name)
    && TakenBy(env, WalkInsts(env.func, path) + block.insts[..j], p, n)
    && block.insts[j] < |env.func.values|
    && var inst := env.func.values[block.insts[j]];
    && (IsRead(env, inst, p) || IsTaken(env, inst, p))
  }

  /** Every such use is in the report, on every walk and for every kind of instruction. */
  lemma UseAfterHandOverReported(
      env: Env, order: KeyOrder, states: map<Label, State>, reached: set<Label>,
      path: seq<Label>, b: nat, j: nat, p: Place, n: nat)
    requires OrdersKeys(order)
    requires ForwardFixpoint(env.func, MoveAnalysis(env, order), states, reached)
    requires UseAfterHandOver(env, path, b, j, p, n)
    ensures Flag(env.func.blocks[b].insts[j], p) in Report(env, states)
  {
    hide GoneAfter, InstActions, TakenBy, IsRead, IsTaken, Gone, ApplyAll, FlagSet, Effective;
    var block := env.func.blocks[b];
    var id := block.insts[j];
    var mid := InstsActions(env, block.insts[..j]);
    EntryOfPathKnown(env.func, path);
    WalkTakes(env, path, block.insts[..j], p, n);
    GoneAfterConcat(false, Trace(env, path), mid, p);
    var g := GoneAfter(false, Trace(env, path), p);
    if g { WalkKeepsGone(env, order, states, reached, path, p); }
    var m := ApplyAll(env, mid, states[block.name].places);
    ApplyAllKeepsGone(env, mid, states[block.name].places, p, g);
    GoneIsUnusable(m, p);
    ReportMeant(env, id, m);
    InReport(env, states, b, j, Flag(id, p));
  }

  lemma GoneIsUnusable(m: PlaceMap, p: Place)
    requires Gone(m, p)
    ensures Effective(m, p) != Live && Untakeable(Effective(m, p))
  {}

  lemma InReport(env: Env, states: map<Label, State>, b: nat, j: nat, f: Flag)
    requires b < |env.func.blocks| && j < |env.func.blocks[b].insts| && env.func.blocks[b].name in states
    requires var block := env.func.blocks[b];
             f in FlagSet(env, block.insts[j], InstActions(env, block.insts[j]),
               ApplyAll(env, InstsActions(env, block.insts[..j]), states[block.name].places))
    ensures f in Report(env, states)
  {
    hide InstActions, ApplyAll, FlagSet;
    var block := env.func.blocks[b];
    var m := states[block.name].places;
    assert f in InstReport(env, block, m)(j);
    InUnion(InstReport(env, block, m), |block.insts|, f);
    assert f in BlockReport(env, states)(b);
    InUnion(BlockReport(env, states), |env.func.blocks|, f);
  }
}
