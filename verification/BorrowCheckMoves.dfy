/** The move part of the borrow checker: run to the fixpoint, then go over every block once
    more with reporting switched on. */
module BorrowCheckMoves {
  import opened Wrappers
  import opened Mvir
  import opened Places
  import opened MoveState
  import opened MoveTransfer
  import opened ForwardDataflow
  import opened MoveSoundness
  import opened MoveTermination
  import opened MoveReports
  import opened MoveChecker

  // ----- the exact set of reports --------------------------------------------------------

  /** What instruction `j` of `block` raises when the block is entered with table `m`. */
  function InstReport(env: Env, block: BasicBlock, m: PlaceMap): nat -> set<Flag> {
    (j: nat) => if j < |block.insts|
      then FlagSet(env, block.insts[j], InstActions(env, block.insts[j]),
             ApplyAll(env, InstsActions(env, block.insts[..j]), m))
      else {}
  }

  function BlockReport(env: Env, states: map<Label, State>): nat -> set<Flag> {
    (b: nat) => if b < |env.func.blocks| && env.func.blocks[b].name in states
      then
        var block := env.func.blocks[b];
        UnionTo(InstReport(env, block, states[block.name].places), |block.insts|)
      else {}
  }

  function Report(env: Env, states: map<Label, State>): set<Flag> {
    UnionTo(BlockReport(env, states), |env.func.blocks|)
  }

  function UnionTo(parts: nat -> set<Flag>, n: nat): set<Flag> {
    if n == 0 then {} else UnionTo(parts, n - 1) + parts(n - 1)
  }

  lemma {:induction false} InUnion(parts: nat -> set<Flag>, n: nat, f: Flag)
    ensures f in UnionTo(parts, n) <==> exists j :: 0 <= j < n && f in parts(j)
  {
    if n > 0 { InUnion(parts, n - 1, f); }
  }

  // ----- a use after a move --------------------------------------------------------------

  /** Action `k` of instruction `j` of block `b`. */
  datatype Site = Site(b: nat, j: nat, k: nat)

  ghost predicate IsSite(env: Env, at: Site) {
    && at.b < |env.func.blocks|
    && at.j < |env.func.blocks[at.b].insts|
    && at.k < |InstActions(env, env.func.blocks[at.b].insts[at.j])|
  }

  function ActionAt(env: Env, at: Site): Action
    requires IsSite(env, at)
  {
    InstActions(env, env.func.blocks[at.b].insts[at.j])[at.k]
  }

  /** A walk from the entry to an action that checks a place which step `i` of the walk moved
      (or whose ancestor it moved) and which nothing has stored to, initialized or
      re-allocated since. */
  ghost predicate UseAfterMove(env: Env, path: seq<Label>, at: Site, i: int) {
    && IsSite(env, at)
    && var block := env.func.blocks[at.b];
    && IsPathBetween(env.func, path, env.func.blocks[0].name, block.name)
    && var act := ActionAt(env, at);
    && (act.Check? || act.CheckField?)
    && var trace := TraceTo(env, path, block, at.j, at.k);
    && 0 <= i < |trace|
    && Kills(trace[i], act.place)
    && forall t :: i < t < |trace| ==> !Revives(trace[t], act.place)
  }

  function FlagAt(env: Env, at: Site): Flag
    requires IsSite(env, at)
  {
    Flag(env.func.blocks[at.b].insts[at.j], ActionAt(env, at).place)
  }

  lemma UseAfterMoveReported(
      env: Env, order: KeyOrder, states: map<Label, State>, reached: set<Label>, path: seq<Label>, at: Site, i: int)
    requires OrdersKeys(order)
    requires ForwardFixpoint(env.func, MoveAnalysis(env, order), states, reached)
    requires UseAfterMove(env, path, at, i)
    ensures FlagAt(env, at) in Report(env, states)
  {
    var block := env.func.blocks[at.b];
    var act := ActionAt(env, at);
    var m := states[block.name].places;
    var f := FlagAt(env, at);
    NoUseAfterMoveMissed(env, order, states, reached, path, block, at.j, at.k, act.place, i);
    FlagSetHas(env, block.insts[at.j], InstActions(env, block.insts[at.j]),
      ApplyAll(env, InstsActions(env, block.insts[..at.j]), m), f);
    assert f in InstReport(env, block, m)(at.j);
    InUnion(InstReport(env, block, m), |block.insts|, f);
    assert f in BlockReport(env, states)(at.b);
    InUnion(BlockReport(env, states), |env.func.blocks|, f);
  }

  // ----- the two passes ------------------------------------------------------------------

  lemma {:induction false} InstsActionsSnoc(env: Env, insts: seq<ValueId>, j: nat)
    requires j < |insts|
    ensures InstsActions(env, insts[..j + 1]) == InstsActions(env, insts[..j]) + InstActions(env, insts[j])
  {
    hide InstActions;
    if j == 0 {
      assert insts[..1] == [insts[0]] && insts[..1][1..] == [] && insts[..0] == [];
    } else {
      InstsActionsSnoc(env, insts[1..], j - 1);
      assert insts[..j + 1][1..] == insts[1..][..j];
      assert insts[..j][1..] == insts[1..][..j - 1];
    }
  }

  /** Instruction `v`, at position `j` of the block, is a drop with nothing to drop. */
  ghost predicate DeadAt(env: Env, block: BasicBlock, m: PlaceMap, j: nat, v: ValueId) {
    && j < |block.insts| && block.insts[j] == v
    && DeadIn(env, InstActions(env, v), ApplyAll(env, InstsActions(env, block.insts[..j]), m))
  }

  ghost predicate DeadBefore(env: Env, block: BasicBlock, m: PlaceMap, n: nat, v: ValueId) {
    exists j: nat :: j < n && DeadAt(env, block, m, j, v)
  }

  ghost predicate DeadInBlock(env: Env, states: map<Label, State>, b: nat, v: ValueId) {
    && b < |env.func.blocks| && env.func.blocks[b].name in states
    && DeadBefore(env, env.func.blocks[b], states[env.func.blocks[b].name].places, |env.func.blocks[b].insts|, v)
  }

  /** In the solved states `v` is a drop with nothing to drop. */
  ghost predicate FoundDead(env: Env, states: map<Label, State>, v: ValueId) {
    DeadInFirst(env, states, |env.func.blocks|, v)
  }

  ghost predicate DeadInFirst(env: Env, states: map<Label, State>, n: nat, v: ValueId) {
    exists b: nat :: b < n && DeadInBlock(env, states, b, v)
  }

  lemma DeadInOneMore(env: Env, states: map<Label, State>, n: nat)
    ensures forall v :: DeadInFirst(env, states, n + 1, v) <==>
      DeadInFirst(env, states, n, v) || DeadInBlock(env, states, n, v)
    ensures forall v :: !DeadInFirst(env, states, 0, v)
  {
    hide DeadInBlock;
    forall v | DeadInBlock(env, states, n, v) ensures DeadInFirst(env, states, n + 1, v) {}
  }

  lemma DeadOneMore(env: Env, block: BasicBlock, m: PlaceMap, j: nat)
    requires j < |block.insts|
    ensures forall v :: DeadBefore(env, block, m, j + 1, v) <==>
      DeadBefore(env, block, m, j, v) || DeadAt(env, block, m, j, v)
  {
    hide DeadAt;
    forall v | DeadAt(env, block, m, j, v) ensures DeadBefore(env, block, m, j + 1, v) {}
  }

  method ReportBlock(analyzer: MoveAnalyzer, block: BasicBlock, s: State)
    requires analyzer.Valid() && analyzer.emitDiagnostics
    requires block in analyzer.env.func.blocks
    requires forall v :: v in block.insts ==> v < |analyzer.env.func.values|
    modifies analyzer
    ensures analyzer.Valid() && analyzer.emitDiagnostics
    ensures analyzer.flagged
      == old(analyzer.flagged) + UnionTo(InstReport(analyzer.env, block, s.places), |block.insts|)
    ensures forall v :: v in analyzer.deadDrops <==>
      v in old(analyzer.deadDrops) || DeadBefore(analyzer.env, block, s.places, |block.insts|, v)
  {
    hide InstActions, PerformAll, DeadIn;
    var env := analyzer.env;
    var current := new MoveStateData(s);
    ghost var parts := InstReport(env, block, s.places);
    assert block.insts[..0] == [];
    for j := 0 to |block.insts|
      invariant analyzer.Valid() && analyzer.emitDiagnostics
      invariant fresh(current)
      invariant current.places == ApplyAll(env, InstsActions(env, block.insts[..j]), s.places)
      invariant analyzer.flagged == old(analyzer.flagged) + UnionTo(parts, j)
      invariant forall v :: v in analyzer.deadDrops <==>
        v in old(analyzer.deadDrops) || DeadBefore(env, block, s.places, j, v)
    {
      var at := block.insts[j];
      assert at in block.insts;
      ghost var before := analyzer.Seen(current);
      analyzer.TransferInstruction(at, current);
      PerformAllApplies(env, true, at, InstActions(env, at), before);
      PerformAllReports(env, at, InstActions(env, at), before);
      PerformAllFindsDead(env, at, InstActions(env, at), before);
      DeadOneMore(env, block, s.places, j);
      assert analyzer.flagged == before.flagged + parts(j);
      InstsActionsSnoc(env, block.insts, j);
      ApplyAllConcat(env, InstsActions(env, block.insts[..j]), InstActions(env, at), s.places);
    }
  }

  /** What the reporting pass must add for block `b`. */
  ghost predicate IsPart(env: Env, states: map<Label, State>, b: nat, part: set<Flag>) {
    && b < |env.func.blocks|
    && var block := env.func.blocks[b];
    && block.name in states
    && (forall v :: v in block.insts ==> v < |env.func.values|)
    && part == UnionTo(InstReport(env, block, states[block.name].places), |block.insts|)
  }

  lemma PartsAre(env: Env, states: map<Label, State>)
    requires WellFormed(env.func) && states.Keys == Labels(env.func)
    ensures forall b :: 0 <= b < |env.func.blocks| ==> IsPart(env, states, b, BlockReport(env, states)(b))
  {}

  lemma StartsEmpty(env: Env, states: map<Label, State>, parts: nat -> set<Flag>)
    ensures UnionTo(parts, 0) == {} && forall v :: !DeadInFirst(env, states, 0, v)
  {}

  lemma UnionMore(parts: nat -> set<Flag>, n: nat)
    ensures UnionTo(parts, n + 1) == UnionTo(parts, n) + parts(n)
  {}

  method ReportAll(analyzer: MoveAnalyzer, states: map<Label, State>, ghost parts: nat -> set<Flag>)
    requires analyzer.Valid() && analyzer.emitDiagnostics && analyzer.flagged == {} && analyzer.deadDrops == {}
    requires forall b :: 0 <= b < |analyzer.env.func.blocks| ==> IsPart(analyzer.env, states, b, parts(b))
    modifies analyzer
    ensures analyzer.flagged == UnionTo(parts, |analyzer.env.func.blocks|)
    ensures forall v :: v in analyzer.deadDrops <==> FoundDead(analyzer.env, states, v)
  {
    hide DeadBefore, DeadInFirst, UnionTo;
    var env := analyzer.env;
    StartsEmpty(env, states, parts);
    for b := 0 to |env.func.blocks|
      invariant analyzer.Valid() && analyzer.emitDiagnostics
      invariant analyzer.flagged == UnionTo(parts, b)
      invariant forall v :: v in analyzer.deadDrops <==> DeadInFirst(env, states, b, v)
    {
      DeadInOneMore(env, states, b);
      assert IsPart(env, states, b, parts(b));
      ReportBlock(analyzer, env.func.blocks[b], states[env.func.blocks[b].name]);
      UnionMore(parts, b);
    }
  }

  /** Everything the walks of the theorem lead to is in `flagged`. */
  ghost predicate MissesNothing(env: Env, flagged: set<Flag>) {
    forall path, at, i :: UseAfterMove(env, path, at, i) ==> FlagAt(env, at) in flagged
  }

  lemma ReportMissesNothing(env: Env, order: KeyOrder, states: map<Label, State>, reached: set<Label>)
    requires OrdersKeys(order)
    requires ForwardFixpoint(env.func, MoveAnalysis(env, order), states, reached)
    ensures MissesNothing(env, Report(env, states))
  {
    forall path, at, i | UseAfterMove(env, path, at, i) ensures FlagAt(env, at) in Report(env, states) {
      UseAfterMoveReported(env, order, states, reached, path, at, i);
    }
  }

  method SolveMoves(
      env: Env, order: KeyOrder) returns (states: map<Label, State>, sweeps: nat, ghost reached: set<Label>)
    requires WellFormed(env.func) && OrdersKeys(order)
    ensures ForwardFixpoint(env.func, MoveAnalysis(env, order), states, reached)
    ensures forall l :: l in reached <==> Reachable(env.func, l)
    ensures forall l :: l in states ==> StartsAtEntry(env.func, l, states[l]) && UnsetAreLocals(states[l].places)
    ensures |env.func.blocks| > 0 ==> sweeps <= |env.func.blocks| * (MaxRank(env) + 1)
  {
    hide StartsAtEntry, UnsetAreLocals, Invariant, Ascends, ForwardFixpoint, OrdersKeys;
    MoveInvariant(env, order);
    MoveAscends(env, order);
    var seen: set<Label>;
    states, sweeps, seen :=
      RunForward(env.func, MoveAnalysis(env, order), map[], Stays(env), s => Rank(env, s), MaxRank(env));
    reached := seen;
  }

  function EnvOf(func: Function, copyable: set<ValueId>, droppable: map<Place, seq<nat>>): Env {
    Env(func, PlacesOf(func), copyable, droppable)
  }

  method CheckMoves(func: Function, copyable: set<ValueId>, droppable: map<Place, seq<nat>>, order: KeyOrder)
    returns (states: map<Label, State>, flagged: set<Flag>, deadDrops: set<ValueId>)
    requires WellFormed(func) && BasesPrecede(func) && OrdersKeys(order)
    ensures exists reached :: ForwardFixpoint(func, MoveAnalysis(EnvOf(func, copyable, droppable), order), states,
      reached)
    ensures forall l :: l in states ==> StartsAtEntry(func, l, states[l]) && UnsetAreLocals(states[l].places)
    ensures flagged == Report(EnvOf(func, copyable, droppable), states)
    ensures MissesNothing(EnvOf(func, copyable, droppable), flagged)
    ensures forall v :: v in deadDrops <==> FoundDead(EnvOf(func, copyable, droppable), states, v)
  {
    var analyzer := new MoveAnalyzer(func, copyable, droppable);
    ghost var env := EnvOf(func, copyable, droppable);
    ghost var reached: set<Label>;
    var sweeps: nat;
    states, sweeps, reached := SolveMoves(analyzer.env, order);
    ReportMissesNothing(env, order, states, reached);
    analyzer.emitDiagnostics := true;
    PartsAre(env, states);
    ReportAll(analyzer, states, BlockReport(env, states));
    flagged, deadDrops := analyzer.flagged, analyzer.deadDrops;
  }
}
