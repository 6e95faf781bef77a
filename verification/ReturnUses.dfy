/** Uses by terminators.  The pass that reports goes over instructions only, so such a use is in
    the report exactly when the check of some instruction puts it there. */
module ReturnUses {
  import opened Wrappers
  import opened Mvir
  import opened Places
  import opened MoveState
  import opened MoveTransfer
  import opened ForwardDataflow
  import opened MoveSoundness
  import opened MoveTermination
  import opened MoveReports
  import opened BorrowCheckMoves

  // ----- a use after a move, by a terminator ---------------------------------------------

  /** Everything done on a walk up to action `k` of the terminator of its last block. */
  ghost function TraceToEnd(env: Env, path: seq<Label>, block: BasicBlock, term: Terminator, k: nat): seq<Action>
    requires IsPath(env.func, path) && k <= |TermActions(env, term)|
  {
    Trace(env, path) + InstsActions(env, block.insts) + TermActions(env, term)[..k]
  }

  /** A walk from the entry to action `k` of a terminator, which checks a place that step `i` of
      the walk moved (or whose ancestor it moved) and that nothing has revived since. */
  ghost predicate EndUseAfterMove(env: Env, path: seq<Label>, block: BasicBlock, term: Terminator, k: nat, i: nat) {
    && block in env.func.blocks && block.terminator == Some(term)
    && IsPathBetween(env.func, path, env.func.blocks[0].name, block.name)
    && k < |TermActions(env, term)|
    && var act := TermActions(env, term)[k];
    && act.Check?
    && var trace := TraceToEnd(env, path, block, term, k);
    && i < |trace|
    && Kills(trace[i], act.place)
    && forall t :: i < t < |trace| ==> !Revives(trace[t], act.place)
  }

  /** The table just before action `k` of the terminator. */
  function TableAtEnd(env: Env, block: BasicBlock, m: PlaceMap, term: Terminator, k: nat): PlaceMap
    requires k <= |TermActions(env, term)|
  {
    ApplyAll(env, TermActions(env, term)[..k], ApplyAll(env, InstsActions(env, block.insts), m))
  }

  /** The check fails: the fixpoint knows that the place is gone. */
  lemma EndCheckFails(
      env: Env, order: KeyOrder, states: map<Label, State>, reached: set<Label>,
      path: seq<Label>, block: BasicBlock, term: Terminator, k: nat, i: nat)
    requires OrdersKeys(order)
    requires ForwardFixpoint(env.func, MoveAnalysis(env, order), states, reached)
    requires EndUseAfterMove(env, path, block, term, k, i)
    ensures block.name in states
    ensures Flags(TermActions(env, term)[k], TableAtEnd(env, block, states[block.name].places, term, k))
  {
    hide TermActions, Kills, Revives;
    EntryOfPathKnown(env.func, path);
    var p := TermActions(env, term)[k].place;
    var m := states[block.name].places;
    var pre, mid, fin := Trace(env, path), InstsActions(env, block.insts), TermActions(env, term)[..k];
    GoneAfterMeans(pre + mid + fin, p);
    GoneAfterConcat(false, pre + mid, fin, p);
    GoneAfterConcat(false, pre, mid, p);
    var g := GoneAfter(false, pre, p);
    if g {
      WalkKeepsGone(env, order, states, reached, path, p);
    }
    var g1 := GoneAfter(g, mid, p);
    if g1 {
      ApplyAllKeepsGone(env, mid, m, p, g);
    }
    ApplyAllKeepsGone(env, fin, ApplyAll(env, mid, m), p, g1);
    GoneIsFlagged(TableAtEnd(env, block, m, term, k), p);
  }

  // ----- when it is reported -------------------------------------------------------------

  /** The report names the place. */
  ghost predicate Names(report: set<Flag>, p: Place) {
    exists v: ValueId :: Flag(v, p) in report
  }

  /** Some listed instruction checks the place, and the check fails in the solved states. */
  ghost predicate RaisedByInstruction(env: Env, states: map<Label, State>, p: Place) {
    exists at: Site :: IsSite(env, at) && RaisesAt(env, states, at) && ActionAt(env, at).place == p
  }

  ghost predicate RaisesAt(env: Env, states: map<Label, State>, at: Site)
    requires IsSite(env, at)
  {
    var block := env.func.blocks[at.b];
    block.name in states
    && Flags(ActionAt(env, at), TableAt(env, block, states[block.name].places, at.j, at.k))
  }

  lemma SiteRaises(env: Env, states: map<Label, State>, at: Site)
    requires IsSite(env, at) && RaisesAt(env, states, at)
    ensures FlagAt(env, at) in Report(env, states)
  {
    hide InstActions, ApplyAll;
    var block := env.func.blocks[at.b];
    var m := states[block.name].places;
    var f := FlagAt(env, at);
    FlagSetHas(env, block.insts[at.j], InstActions(env, block.insts[at.j]),
      ApplyAll(env, InstsActions(env, block.insts[..at.j]), m), f);
    assert f in InstReport(env, block, m)(at.j);
    InUnion(InstReport(env, block, m), |block.insts|, f);
    assert f in BlockReport(env, states)(at.b);
    InUnion(BlockReport(env, states), |env.func.blocks|, f);
  }

  lemma ReportHasSite(env: Env, states: map<Label, State>, f: Flag) returns (at: Site)
    requires f in Report(env, states)
    ensures IsSite(env, at) && RaisesAt(env, states, at) && FlagAt(env, at) == f
  {
    hide InstActions, ApplyAll;
    InUnion(BlockReport(env, states), |env.func.blocks|, f);
    var b :| 0 <= b < |env.func.blocks| && f in BlockReport(env, states)(b);
    var block := env.func.blocks[b];
    var m := states[block.name].places;
    InUnion(InstReport(env, block, m), |block.insts|, f);
    var j :| 0 <= j < |block.insts| && f in InstReport(env, block, m)(j);
    var acts, before := InstActions(env, block.insts[j]), ApplyAll(env, InstsActions(env, block.insts[..j]), m);
    FlagSetHas(env, block.insts[j], acts, before, f);
    var k :| 0 <= k < |acts| && Flags(acts[k], ApplyAll(env, acts[..k], before))
      && f == Flag(block.insts[j], acts[k].place);
    at := Site(b, j, k);
  }

  /** A use after a move by a terminator fails its check, and is in the report if and only if
      some listed instruction's own check raises the place. */
  lemma EndUseReportedIff(
      env: Env, order: KeyOrder, states: map<Label, State>, reached: set<Label>,
      path: seq<Label>, block: BasicBlock, term: Terminator, k: nat, i: nat)
    requires OrdersKeys(order)
    requires ForwardFixpoint(env.func, MoveAnalysis(env, order), states, reached)
    requires EndUseAfterMove(env, path, block, term, k, i)
    ensures var act := TermActions(env, term)[k];
            && block.name in states && Flags(act, TableAtEnd(env, block, states[block.name].places, term, k))
            && (Names(Report(env, states), act.place) <==> RaisedByInstruction(env, states, act.place))
  {
    hide Flags, ApplyAll, TermActions, InstActions, Report;
    EndCheckFails(env, order, states, reached, path, block, term, k, i);
    var p := TermActions(env, term)[k].place;
    if Names(Report(env, states), p) {
      var v: ValueId :| Flag(v, p) in Report(env, states);
      var at := ReportHasSite(env, states, Flag(v, p));
      assert ActionAt(env, at).place == p;
    }
    if RaisedByInstruction(env, states, p) {
      var at: Site :| IsSite(env, at) && RaisesAt(env, states, at) && ActionAt(env, at).place == p;
      SiteRaises(env, states, at);
      assert Flag(env.func.blocks[at.b].insts[at.j], p) in Report(env, states);
    }
  }

  // ----- operands that the block loads ---------------------------------------------------

  /** Position `j` of the block loads the terminator's place, and nothing behind it in the block
      moves the place or what it lies within. */
  ghost predicate LoadedAt(env: Env, block: BasicBlock, p: Place, j: nat) {
    && j < |block.insts| && InstActions(env, block.insts[j]) == [Check(p)]
    && SparesPlace(InstsActions(env, block.insts[j + 1..]), p)
  }

  ghost predicate SparesPlace(acts: seq<Action>, p: Place) {
    forall t :: 0 <= t < |acts| ==> !Kills(acts[t], p)
  }

  lemma {:induction false} InstsSplit(env: Env, insts: seq<ValueId>, j: nat)
    requires j < |insts|
    ensures InstsActions(env, insts)
      == InstsActions(env, insts[..j]) + InstActions(env, insts[j]) + InstsActions(env, insts[j + 1..])
    decreases j
  {
    hide InstActions;
    if j == 0 {
      assert insts[..0] == [];
    } else {
      InstsSplit(env, insts[1..], j - 1);
      assert insts[1..][..j - 1] == insts[..j][1..];
      assert insts[1..][j - 1 + 1..] == insts[j + 1..];
    }
  }

  /** What killed the place did so before the check. */
  lemma KilledEarlier(before: seq<Action>, rest: seq<Action>, p: Place, i: nat)
    requires var trace := before + [Check(p)] + rest;
             i < |trace| && Kills(trace[i], p) && forall t :: i < t < |trace| ==> !Revives(trace[t], p)
    requires SparesPlace(rest, p)
    ensures i < |before| && Kills(before[i], p) && forall t :: i < t < |before| ==> !Revives(before[t], p)
  {
    var trace := before + [Check(p)] + rest;
    assert trace[|before|] == Check(p);
    assert forall t :: |before| < t < |trace| ==> trace[t] == rest[t - |before| - 1];
    assert forall t :: 0 <= t < |before| ==> trace[t] == before[t];
  }

  /** Generated functions load a local before they return it or branch on it.  The load checks the
      place first, so that the use after the move is reported. */
  lemma LoadedEndUseReported(
      env: Env, order: KeyOrder, states: map<Label, State>, reached: set<Label>,
      path: seq<Label>, b: nat, term: Terminator, i: nat, j: nat)
    requires OrdersKeys(order)
    requires ForwardFixpoint(env.func, MoveAnalysis(env, order), states, reached)
    requires b < |env.func.blocks| && EndUseAfterMove(env, path, env.func.blocks[b], term, 0, i)
    requires LoadedAt(env, env.func.blocks[b], TermActions(env, term)[0].place, j)
    ensures Flag(env.func.blocks[b].insts[j], TermActions(env, term)[0].place) in Report(env, states)
  {
    hide InstActions, TermActions, Report, Revives, Kills, SparesPlace, Trace, InstsActions;
    var block := env.func.blocks[b];
    var p := TermActions(env, term)[0].place;
    var at := Site(b, j, 0);
    var trace, shorter := TraceToEnd(env, path, block, term, 0), TraceTo(env, path, block, j, 0);
    var rest := InstsActions(env, block.insts[j + 1..]);
    InstsSplit(env, block.insts, j);
    assert TermActions(env, term)[..0] == [] && InstActions(env, block.insts[j])[..0] == [];
    assert trace == shorter + [Check(p)] + rest;
    KilledEarlier(shorter, rest, p, i);
    assert UseAfterMove(env, path, at, i);
    UseAfterMoveReported(env, order, states, reached, path, at, i);
  }

  // ----- functions of one block ----------------------------------------------------------

  /** The table before instruction `j` of a function of one block. */
  function Straight(env: Env, j: nat): PlaceMap
    requires |env.func.blocks| == 1 && j <= |env.func.blocks[0].insts|
  {
    ApplyAll(env, InstsActions(env, env.func.blocks[0].insts[..j]), EntryTable(env.func))
  }

  lemma StraightStep(env: Env, j: nat)
    requires |env.func.blocks| == 1 && j < |env.func.blocks[0].insts|
    ensures Straight(env, j + 1) == ApplyAll(env, InstActions(env, env.func.blocks[0].insts[j]), Straight(env, j))
    ensures Straight(env, 0) == EntryTable(env.func)
  {
    hide InstActions;
    var insts := env.func.blocks[0].insts;
    InstsActionsSnoc(env, insts, j);
    ApplyAllConcat(env, InstsActions(env, insts[..j]), InstActions(env, insts[j]), EntryTable(env.func));
    assert insts[..0] == [];
  }

  /** Nothing leads back to the only block, if it does not branch: its state is the entry table. */
  lemma OneBlockStarts(env: Env, states: map<Label, State>)
    requires |env.func.blocks| == 1 && Successors(env.func.blocks[0]) == []
    requires env.func.blocks[0].name in states
    requires StartsAtEntry(env.func, env.func.blocks[0].name, states[env.func.blocks[0].name])
    ensures states[env.func.blocks[0].name].places == EntryTable(env.func)
  {
    assert NoWayBack(env.func);
  }

  lemma OneBlockReport(env: Env, states: map<Label, State>)
    requires |env.func.blocks| == 1 && env.func.blocks[0].name in states
    requires states[env.func.blocks[0].name].places == EntryTable(env.func)
    requires forall j :: 0 <= j < |env.func.blocks[0].insts| ==>
      FlagSet(env, env.func.blocks[0].insts[j], InstActions(env, env.func.blocks[0].insts[j]), Straight(env, j)) == {}
    ensures Report(env, states) == {}
  {
    hide InstActions, FlagSet, Straight;
    var block := env.func.blocks[0];
    var parts := InstReport(env, block, states[block.name].places);
    forall j | 0 <= j < |block.insts| ensures parts(j) == {} {
      StraightIs(env, j);
    }
    NothingRaised(parts, |block.insts|);
    assert BlockReport(env, states)(0) == {};
    NothingRaised(BlockReport(env, states), 1);
  }

  lemma StraightIs(env: Env, j: nat)
    requires |env.func.blocks| == 1 && j <= |env.func.blocks[0].insts|
    ensures Straight(env, j) == ApplyAll(env, InstsActions(env, env.func.blocks[0].insts[..j]), EntryTable(env.func))
  {}

  lemma {:induction false} NothingRaised(parts: nat -> set<Flag>, n: nat)
    requires forall j :: 0 <= j < n ==> parts(j) == {}
    ensures UnionTo(parts, n) == {}
  {
    if n > 0 { NothingRaised(parts, n - 1); }
  }

  // ----- uses that are not reported ------------------------------------------------------

  lemma OneAction(env: Env, at: ValueId, act: Action, m: PlaceMap)
    ensures ApplyAll(env, [act], m) == Apply(env, act, m)
    ensures FlagSet(env, at, [act], m) == if Flags(act, m) then {Flag(at, act.place)} else {}
  {
    assert [act][..0] == [];
    assert FlagSet(env, at, [], m) == {} && ApplyAll(env, [], m) == m;
  }

  lemma TwoActions(env: Env, at: ValueId, a: Action, b: Action, m: PlaceMap)
    ensures ApplyAll(env, [a, b], m) == Apply(env, b, Apply(env, a, m))
    ensures FlagSet(env, at, [a, b], m)
      == (if Flags(a, m) then {Flag(at, a.place)} else {})
        + (if Flags(b, Apply(env, a, m)) then {Flag(at, b.place)} else {})
  {
    OneAction(env, at, a, m);
    assert [a, b][..1] == [a];
  }

  /** An argument is moved by an assignment and then returned as it stands, without a load. */
  function MoveThenReturn(): Function {
    Function(1, [BasicBlock("entry", [0, 1], Some(Ret(Some(Value(0)))))], [Alloca, Assign(Value(0))])
  }

  /** Interface level: a client of the analysis can build this function, the generator would load
      the argument first.  Its terminator's check fails and nothing is reported. */
  lemma ReturnedMoveNotReported(env: Env, states: map<Label, State>)
    requires env.func == MoveThenReturn() && env.places == PlacesOf(env.func) && env.copyable == {}
    requires "entry" in states && StartsAtEntry(env.func, "entry", states["entry"])
    ensures TermActions(env, Ret(Some(Value(0)))) == [Check(Place(0, [])), MarkMoved(Place(0, []))]
    ensures Flags(Check(Place(0, [])), TableAtEnd(env, env.func.blocks[0], states["entry"].places, Ret(Some(Value(0))),
      0))
    ensures Report(env, states) == {}
  {
    var p := Place(0, []);
    var block := env.func.blocks[0];
    assert block.name == "entry";
    ArgumentPlace(env);
    OneBlockStarts(env, states);
    var m: PlaceMap := map[p := Live];
    AllocateKeeps(env);
    StraightStep(env, 0);
    StraightStep(env, 1);
    assert InstActions(env, 1) == [Check(p), MarkMoved(p)];
    TwoActions(env, 1, Check(p), MarkMoved(p), m);
    assert Effective(m, p) == Live;
    assert Overwrite(m, p, Moved) == map[p := Moved];
    assert Straight(env, 2) == map[p := Moved];
    assert block.insts[..2] == block.insts;
    assert TermActions(env, Ret(Some(Value(0))))[..0] == [];
    OneBlockReport(env, states);
  }

  /** What `return s.f` becomes when `s` owns something: the field is loaded, `s` is dropped as it
      goes out of scope, and the loaded value is returned. */
  function ReturnPartOfDropped(): Function {
    Function(1, [BasicBlock("entry", [0, 1, 2, 3], Some(Ret(Some(Value(2)))))],
             [Alloca, FieldPtr(Value(0), 0), Load(Value(1)), Drop(Value(0), None)])
  }

  lemma PartActions(env: Env)
    requires env.func == ReturnPartOfDropped() && env.places == PlacesOf(env.func) && env.copyable == {}
    ensures var p := Place(0, []); var f := Projected(p, Field(0));
            && InstActions(env, 1) == [] && InstActions(env, 2) == [Check(f)]
            && InstActions(env, 3) == [CheckDrop(p), MarkDropped(p)]
            && TermActions(env, Ret(Some(Value(2)))) == [Check(f), MarkMoved(f)]
  {
    PartPlaces(env.func);
    assert 0 in env.places && 1 in env.places && 2 in env.places;
  }

  lemma PartPlaces(func: Function)
    requires func == ReturnPartOfDropped()
    ensures PlaceOfValue(func, 0) == Some(Place(0, []))
    ensures PlaceOfValue(func, 1) == PlaceOfValue(func, 2) == Some(Projected(Place(0, []), Field(0)))
  {
    assert func.blocks[0].insts == [0, 1, 2, 3];
    assert 1 in func.blocks[0].insts && 2 in func.blocks[0].insts && 0 in func.blocks[0].insts;
    assert PlaceOfValue(func, 0) == Some(Place(0, []));
    assert PlaceOfValue(func, 1) == Some(Projected(Place(0, []), Field(0)));
  }

  /** Generated code: the returned field has been dropped with the whole, the terminator's check
      fails, and nothing is reported. */
  lemma ReturnedPartNotReported(env: Env, states: map<Label, State>)
    requires env.func == ReturnPartOfDropped() && env.places == PlacesOf(env.func) && env.copyable == {}
    requires "entry" in states && StartsAtEntry(env.func, "entry", states["entry"])
    ensures var f := Projected(Place(0, []), Field(0));
            && TermActions(env, Ret(Some(Value(2)))) == [Check(f), MarkMoved(f)]
            && Flags(Check(f), TableAtEnd(env, env.func.blocks[0], states["entry"].places, Ret(Some(Value(2))), 0))
    ensures Report(env, states) == {}
  {
    hide InstActions, TermActions, Flags, PlacesOf, FlagSet, Straight, ApplyAll;
    var p := Place(0, []);
    var f := Projected(p, Field(0));
    var block := env.func.blocks[0];
    assert block.name == "entry" && 0 in block.insts;
    ArgumentPlace(env);
    OneBlockStarts(env, states);
    PartActions(env);
    PartTables(env);
    DroppedWhole(env, p);
    StraightIs(env, 4);
    assert block.insts[..4] == block.insts;
    NoActions(env, 1, map[p := Dropped]);
    assert TermActions(env, Ret(Some(Value(2))))[..0] == [];
    OneBlockReport(env, states);
  }

  lemma NoActions(env: Env, at: ValueId, m: PlaceMap)
    ensures ApplyAll(env, [], m) == m && FlagSet(env, at, [], m) == {}
  {}

  /** The tables before the four instructions, none of which raises anything, and at the end. */
  lemma PartTables(env: Env)
    requires env.func == ReturnPartOfDropped() && env.places == PlacesOf(env.func) && env.copyable == {}
    ensures Straight(env, 4) == map[Place(0, []) := Dropped]
    ensures forall j :: 0 <= j < 4 ==>
      FlagSet(env, env.func.blocks[0].insts[j], InstActions(env, env.func.blocks[0].insts[j]), Straight(env, j)) == {}
  {
    hide InstActions, Flags, PlacesOf, FlagSet, Straight, ApplyAll, Apply;
    var p := Place(0, []);
    var f := Projected(p, Field(0));
    var m: PlaceMap := map[p := Live];
    var insts := env.func.blocks[0].insts;
    assert insts[0] == 0 && insts[1] == 1 && insts[2] == 2 && insts[3] == 3;
    ArgumentPlace(env);
    AllocateKeeps(env);
    PartActions(env);
    NoActions(env, 1, m);
    DroppedWhole(env, p);
    OneAction(env, 2, Check(f), m);
    TwoActions(env, 3, CheckDrop(p), MarkDropped(p), m);
    StraightStep(env, 1);
    StraightStep(env, 2);
    StraightStep(env, 3);
    assert Straight(env, 1) == Straight(env, 2) == Straight(env, 3) == m;
  }

  /** A live local and its field pass their checks; once the local is dropped the field's fails. */
  lemma DroppedWhole(env: Env, p: Place)
    requires p.projections == []
    ensures var f := Projected(p, Field(0)); var m: PlaceMap := map[p := Live];
            && !Flags(Check(f), m) && !Flags(CheckDrop(p), m) && Apply(env, CheckDrop(p), m) == m
            && Apply(env, Check(f), m) == m && Apply(env, MarkDropped(p), m) == map[p := Dropped]
            && Flags(Check(f), map[p := Dropped]) && !Flags(MarkDropped(p), m)
  {
    var f := Projected(p, Field(0));
    var m: PlaceMap := map[p := Live];
    assert Effective(m, p) == Live && !Ancestor(f, p);
    assert Parent(f) == p && f !in m && Inherited(m, f) == Live && !HasBad(m, f);
    assert Overwrite(m, p, Dropped) == map[p := Dropped];
    assert Inherited(map[p := Dropped], p) == Dropped;
    assert Inherited(map[p := Dropped], f) == Dropped;
  }

  /** Value 0 is the only local, and an argument. */
  lemma ArgumentPlace(env: Env)
    requires env.places == PlacesOf(env.func) && env.func.argCount == 1 && |env.func.values| > 0
      && env.func.values[0].Alloca?
    requires IsListed(env.func, 0) && forall v :: 1 <= v < |env.func.values| ==> !env.func.values[v].Alloca?
    ensures 0 in env.places && env.places[0] == Place(0, [])
    ensures EntryTable(env.func) == map[Place(0, []) := Live]
    ensures InstActions(env, 0) == [Allocate(Place(0, []), Live)]
  {
    assert PlaceOfValue(env.func, 0) == Some(Place(0, []));
    OnlyArgument(env.func, |env.func.values|);
  }

  lemma {:induction false} OnlyArgument(func: Function, n: nat)
    requires func.argCount == 1 && 1 <= n <= |func.values| && func.values[0].Alloca?
    requires forall v :: 1 <= v < |func.values| ==> !func.values[v].Alloca?
    ensures EntryPlaces(func, n) == map[Place(0, []) := Live] && CountAllocas(func, n) == 1
  {
    if n == 1 {
      assert CountAllocas(func, 0) == 0 && EntryPlaces(func, 0) == map[];
    } else {
      OnlyArgument(func, n - 1);
    }
  }

  /** Listing the argument's slot first leaves it live. */
  lemma AllocateKeeps(env: Env)
    requires |env.func.blocks| == 1 && env.func.blocks[0].insts != [] && env.func.blocks[0].insts[0] == 0
    requires InstActions(env, 0) == [Allocate(Place(0, []), Live)] && EntryTable(env.func) == map[Place(0, []) := Live]
    ensures Straight(env, 1) == map[Place(0, []) := Live]
    ensures FlagSet(env, 0, InstActions(env, 0), Straight(env, 0)) == {}
  {
    StraightStep(env, 0);
    OneAction(env, 0, Allocate(Place(0, []), Live), Straight(env, 0));
  }
}
