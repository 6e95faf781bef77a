/** Drops that the move analysis takes for dead are removed.  A drop of something that a walk
    still owns is not among them. */
module DropSoundness {
  import opened Wrappers
  import opened Mvir
  import opened Places
  import opened MoveState
  import opened MoveTransfer
  import opened ForwardDataflow
  import opened MoveSoundness
  import opened MoveTermination
  import opened MoveReports
  import opened BorrowCheckMoves
  import opened ReturnUses

  /** There may be something to drop: the states a drop is not removed in. */
  predicate Alive(v: MoveState) {
    v.Live? || v.PartialMoved? || v.ConditionallyMoved?
  }

  /** `p` and all it lies within may hold something. */
  ghost predicate Held(m: PlaceMap, p: Place) {
    forall c :: Ancestor(c, p) ==> Alive(Inherited(m, c))
  }

  lemma HeldIsNotDead(m: PlaceMap, p: Place)
    requires Held(m, p)
    ensures !FindsDeadDrop(CheckDrop(p), m)
  {
    AncestorSelf(p);
  }

  lemma AncestorSelf(p: Place)
    ensures Ancestor(p, p)
  {}

  /** From each place it lies within, the way to `p` goes through a field that owns something. */
  ghost predicate PathDroppable(env: Env, p: Place) {
    forall a :: Ancestor(a, p) && a != p && CanCollapse(env, a) ==> LeadsOn(env, a, p)
  }

  ghost predicate LeadsOn(env: Env, a: Place, p: Place)
    requires a in env.droppable
  {
    exists i :: 0 <= i < |env.droppable[a]| && Ancestor(Projected(a, Field(env.droppable[a][i])), p)
  }

  // ----- who owns what, along a walk -----------------------------------------------------

  /** After these actions, which start at the entry of the function, `p` has a value of its own.
      A live argument has one.  A store fills `p` and all below it, if what the target lies within
      has a value.  A move, drop or allocation of `p` or around it takes the value away, and so
      does the move of a part when no field that owns something is left. */
  ghost predicate Owned(env: Env, acts: seq<Action>, p: Place)
    decreases |acts|, if acts == [] then 0 else Depth(acts[|acts| - 1].place, p), 1
  {
    if acts == [] then
      var x := Place(p.local, []);
      x in EntryTable(env.func) && EntryTable(env.func)[x] == Live
    else
      var init, last := acts[..|acts| - 1], acts[|acts| - 1];
      var q := last.place;
      if last.MarkLive? && Ancestor(q, p) then q.projections == [] || Owned(env, init, Parent(q))
      else if Takes(last) && Ancestor(q, p) then false
      else if last.MarkMoved? && Ancestor(p, q) then Owned(env, init, p) && SomethingLeft(env, acts, p)
      else Owned(env, init, p)
  }

  predicate Takes(act: Action) {
    act.MarkMoved? || act.MarkDropped? || (act.Allocate? && act.state != Live)
  }

  function Depth(q: Place, p: Place): nat {
    if |q.projections| > |p.projections| then |q.projections| - |p.projections| else 0
  }

  /** `p` does not fall to pieces, or a field of it that owns something has its value. */
  ghost predicate SomethingLeft(env: Env, acts: seq<Action>, p: Place)
    requires acts != [] && Ancestor(p, acts[|acts| - 1].place) && p != acts[|acts| - 1].place
    decreases |acts|, Depth(acts[|acts| - 1].place, p), 0
  {
    CanCollapse(env, p) ==>
      exists i :: 0 <= i < |env.droppable[p]| && Owned(env, acts, Projected(p, Field(env.droppable[p][i])))
  }

  /** All that is owned along a walk is held in the table. */
  ghost predicate Covers(env: Env, acts: seq<Action>, m: PlaceMap) {
    forall p :: PathDroppable(env, p) && Owned(env, acts, p) ==> Held(m, p)
  }

  // ----- one action ----------------------------------------------------------------------

  lemma UpPathDroppable(env: Env, q: Place, p: Place)
    requires Ancestor(q, p) && PathDroppable(env, p)
    ensures PathDroppable(env, q)
  {
    forall a | Ancestor(a, q) && a != q && CanCollapse(env, a) ensures LeadsOn(env, a, q) {
      AncestorTrans(a, q, p);
      assert LeadsOn(env, a, p);
      var i :| 0 <= i < |env.droppable[a]| && Ancestor(Projected(a, Field(env.droppable[a][i])), p);
      AncestorsAreChain(Projected(a, Field(env.droppable[a][i])), q, p);
      assert Ancestor(Projected(a, Field(env.droppable[a][i])), q);
    }
  }

  lemma FieldPathDroppable(env: Env, p: Place, i: nat)
    requires PathDroppable(env, p) && p in env.droppable && i < |env.droppable[p]|
    ensures PathDroppable(env, Projected(p, Field(env.droppable[p][i])))
  {
    var f := Projected(p, Field(env.droppable[p][i]));
    forall a | Ancestor(a, f) && a != f && CanCollapse(env, a) ensures LeadsOn(env, a, f) {
      assert Parent(f) == p;
      AncestorParent(a, f);
      if a != p {
        assert LeadsOn(env, a, p);
        var k :| 0 <= k < |env.droppable[a]| && Ancestor(Projected(a, Field(env.droppable[a][k])), p);
        AncestorTrans(Projected(a, Field(env.droppable[a][k])), p, f);
      }
    }
  }

  lemma NotAllGone(env: Env, m: PlaceMap, a: Place, p: Place)
    requires Held(m, p)
    ensures a in env.droppable && LeadsOn(env, a, p) ==> !AllFieldsGone(m, a, env.droppable[a])
  {
    if a in env.droppable && LeadsOn(env, a, p) {
      var i :| 0 <= i < |env.droppable[a]| && Ancestor(Projected(a, Field(env.droppable[a][i])), p);
      assert !FieldGone(m, a, env.droppable[a][i]);
    }
  }

  lemma OverwriteKeepsHeld(m: PlaceMap, q: Place, v: MoveState, p: Place)
    requires Held(m, p) && (!Ancestor(q, p) || Alive(v))
    ensures Held(Overwrite(m, q, v), p)
  {
    forall c | Ancestor(c, p) ensures Alive(Inherited(Overwrite(m, q, v), c)) {
      InheritedOverwrite(m, q, v, c);
      if Ancestor(q, c) { AncestorTrans(q, c, p); }
    }
  }

  /** A store fills what lies at and below its target, if what is above holds something. */
  lemma FilledIsHeld(m: PlaceMap, q: Place, p: Place)
    requires Ancestor(q, p) && (q.projections != [] ==> Held(m, Parent(q)))
    ensures Held(Overwrite(m, q, Live), p)
  {
    forall c | Ancestor(c, p) ensures Alive(Inherited(Overwrite(m, q, Live), c)) {
      InheritedOverwrite(m, q, Live, c);
      if !Ancestor(q, c) {
        AncestorsAreChain(c, q, p);
        AncestorParent(c, q);
      }
    }
  }

  lemma {:induction false} ReviveKeepsAlive(m: PlaceMap, k: Place, c: Place)
    requires Alive(Inherited(m, c))
    ensures Alive(Inherited(m[k := Live], c))
    decreases |c.projections|
  {
    if c != k && c !in m && c.projections != [] { ReviveKeepsAlive(m, k, Parent(c)); }
  }

  lemma LiveKeepsHeld(m: PlaceMap, q: Place, p: Place)
    requires Held(m, p)
    ensures Held(m[q := Live], p)
  {
    forall c | Ancestor(c, p) ensures Alive(Inherited(m[q := Live], c)) {
      ReviveKeepsAlive(m, q, c);
    }
  }

  lemma AllocateKeepsHeld(m: PlaceMap, q: Place, v: MoveState, p: Place)
    requires Held(m, p) && !Ancestor(q, p)
    ensures Held(m[q := v], p)
  {
    forall c | Ancestor(c, p) ensures Alive(Inherited(m[q := v], c)) {
      forall k | Ancestor(k, c) ensures k != q {
        AncestorTrans(k, c, p);
      }
      InheritedAside(m, m[q := v], c);
    }
  }

  /** A field that owns something and is still owned, at or below field `i` of `a`, which is on
      the way to the place just moved. */
  lemma WayDown(env: Env, acts: seq<Action>, a: Place, p: Place) returns (r: Place)
    requires acts != [] && acts[|acts| - 1].MarkMoved? && Ancestor(a, acts[|acts| - 1].place)
      && a != acts[|acts| - 1].place
    requires CanCollapse(env, a) && Ancestor(a, p) && PathDroppable(env, p) && Owned(env, acts, p)
    ensures PathDroppable(env, r) && Owned(env, acts, r) && LeadsOn(env, a, r)
  {
    if a == p {
      var q := acts[|acts| - 1].place;
      assert !Ancestor(q, p);
      assert SomethingLeft(env, acts, p);
      var i :| 0 <= i < |env.droppable[p]| && Owned(env, acts, Projected(p, Field(env.droppable[p][i])));
      r := Projected(p, Field(env.droppable[p][i]));
      FieldPathDroppable(env, p, i);
      AncestorSelf(r);
    } else {
      r := p;
    }
  }

  /** What is owned after the move keeps everything above it from falling to pieces. */
  lemma {:induction false} CollapseCovers(env: Env, acts: seq<Action>, q: Place, m: PlaceMap)
    requires acts != [] && acts[|acts| - 1].MarkMoved? && Ancestor(q, acts[|acts| - 1].place)
    requires forall p :: PathDroppable(env, p) && Owned(env, acts, p) ==> Held(m, p) && !Ancestor(q, p)
    ensures Covers(env, acts, Collapse(env, q, m))
    decreases |q.projections|
  {
    hide Held, PathDroppable, Owned, LeadsOn;
    if q.projections != [] {
      var a := Parent(q);
      AncestorParent(a, q);
      AncestorTrans(a, q, acts[|acts| - 1].place);
      if CanCollapse(env, a) && AllFieldsGone(m, a, env.droppable[a]) {
        forall p | PathDroppable(env, p) && Owned(env, acts, p)
          ensures Held(Overwrite(m, a, Moved), p) && !Ancestor(a, p)
        {
          if Ancestor(a, p) {
            var r := WayDown(env, acts, a, p);
            NotAllGone(env, m, a, r);
            assert false;
          }
          OverwriteKeepsHeld(m, a, Moved, p);
        }
        CollapseCovers(env, acts, a, Overwrite(m, a, Moved));
      }
    }
  }

  lemma MoveCovers(env: Env, acts: seq<Action>, m: PlaceMap)
    requires acts != [] && acts[|acts| - 1].MarkMoved? && Covers(env, acts[..|acts| - 1], m)
    ensures Covers(env, acts, Apply(env, acts[|acts| - 1], m))
  {
    hide Held, PathDroppable;
    var q := acts[|acts| - 1].place;
    AncestorSelf(q);
    forall p | PathDroppable(env, p) && Owned(env, acts, p) ensures Held(Overwrite(m, q, Moved), p) && !Ancestor(q, p) {
      OverwriteKeepsHeld(m, q, Moved, p);
    }
    CollapseCovers(env, acts, q, Overwrite(m, q, Moved));
  }

  lemma LiveCovers(env: Env, acts: seq<Action>, m: PlaceMap)
    requires acts != [] && acts[|acts| - 1].MarkLive? && Covers(env, acts[..|acts| - 1], m)
    ensures Covers(env, acts, Apply(env, acts[|acts| - 1], m))
  {
    hide Held, PathDroppable;
    var q := acts[|acts| - 1].place;
    forall p | PathDroppable(env, p) && Owned(env, acts, p) ensures Held(Apply(env, acts[|acts| - 1], m), p) {
      if Ancestor(q, p) {
        if q.projections != [] {
          AncestorParent(q, q);
          AncestorTrans(Parent(q), q, p);
          UpPathDroppable(env, Parent(q), p);
        }
        FilledIsHeld(m, q, p);
      } else {
        OverwriteKeepsHeld(m, q, Live, p);
      }
      if q.projections != [] { LiveKeepsHeld(Overwrite(m, q, Live), Parent(q), p); }
    }
  }

  lemma OtherCovers(env: Env, acts: seq<Action>, m: PlaceMap)
    requires acts != [] && Covers(env, acts[..|acts| - 1], m)
    requires !acts[|acts| - 1].MarkMoved? && !acts[|acts| - 1].MarkLive?
    ensures Covers(env, acts, Apply(env, acts[|acts| - 1], m))
  {
    hide Held, PathDroppable;
    var act := acts[|acts| - 1];
    var q := act.place;
    forall p | PathDroppable(env, p) && Owned(env, acts, p) ensures Held(Apply(env, act, m), p) {
      assert Owned(env, acts[..|acts| - 1], p);
      match act
      case MarkDropped(_) => OverwriteKeepsHeld(m, q, Dropped, p);
      case Allocate(_, v) => if Ancestor(q, p) { LiveKeepsHeld(m, q, p); } else { AllocateKeepsHeld(m, q, v, p); }
      case _ =>
    }
  }

  // ----- walks ---------------------------------------------------------------------------

  lemma {:induction false} ApplyAllCovers(env: Env, before: seq<Action>, acts: seq<Action>, m: PlaceMap)
    requires Covers(env, before, m)
    ensures Covers(env, before + acts, ApplyAll(env, acts, m))
    decreases |acts|
  {
    hide Covers, Apply;
    if acts == [] {
      assert before + acts == before;
    } else {
      var init := acts[..|acts| - 1];
      ApplyAllCovers(env, before, init, m);
      var all, m1 := before + acts, ApplyAll(env, init, m);
      assert all[..|all| - 1] == before + init && all[|all| - 1] == acts[|acts| - 1];
      if acts[|acts| - 1].MarkMoved? { MoveCovers(env, all, m1); }
      else if acts[|acts| - 1].MarkLive? { LiveCovers(env, all, m1); }
      else { OtherCovers(env, all, m1); }
    }
  }

  /** On entry a live argument is held, whatever flows back to the first block. */
  lemma EntryCovers(env: Env, s: State)
    requires |env.func.blocks| > 0 && StartsAtEntry(env.func, env.func.blocks[0].name, s)
    ensures Covers(env, [], s.places)
  {
    forall p | PathDroppable(env, p) && Owned(env, [], p) ensures Held(s.places, p) {
      forall c | Ancestor(c, p) ensures Alive(Inherited(s.places, c)) {
        EntryEffective(env.func, c);
        assert Le(Effective(EntryTable(env.func), c), Effective(s.places, c));
      }
    }
  }

  lemma EntryEffective(func: Function, c: Place)
    ensures var x := Place(c.local, []);
            x in EntryTable(func) && EntryTable(func)[x] == Live ==> Effective(EntryTable(func), c) == Live
  {
    var m := EntryTable(func);
    var x := Place(c.local, []);
    if x in m && m[x] == Live {
      EntryKeys(func, |func.values|);
      assert forall k :: k in m && Ancestor(k, c) ==> k == x;
      InheritedIs(m, x, c);
      assert forall k :: k in m && Ancestor(c, k) ==> k == x;
    }
  }

  lemma {:induction false} EntryKeys(func: Function, n: nat)
    requires n <= |func.values|
    ensures forall k :: k in EntryPlaces(func, n) ==> k.projections == []
  {
    if n > 0 { EntryKeys(func, n - 1); }
  }

  lemma EdgeKeepsHeld(env: Env, order: KeyOrder, block: BasicBlock, y: Label, states: map<Label, State>, p: Place)
    requires OrdersKeys(order)
    requires block.name in states && y in states
    requires EdgeStable(MoveAnalysis(env, order), block, y, states)
    requires Held(ApplyAll(env, BlockActions(env, block), states[block.name].places), p)
    ensures Held(states[y].places, p)
  {
    var flow := ApplyAll(env, BlockActions(env, block), states[block.name].places);
    forall c | Ancestor(c, p) ensures Alive(Inherited(states[y].places, c)) {
      EdgeRaises(env, order, block, y, states, c);
      assert Alive(Inherited(flow, c));
    }
  }

  /** What flows along an edge is below the state behind it. */
  lemma EdgeRaises(env: Env, order: KeyOrder, block: BasicBlock, y: Label, states: map<Label, State>, c: Place)
    requires OrdersKeys(order)
    requires block.name in states && y in states
    requires EdgeStable(MoveAnalysis(env, order), block, y, states)
    ensures var flow := ApplyAll(env, BlockActions(env, block), states[block.name].places);
            Le(Effective(flow, c), Effective(states[y].places, c)) && flow.Keys <= states[y].places.Keys
  {
    var a := MoveAnalysis(env, order);
    var s := Flow(a, block, y, states[block.name]);
    FlowIs(env, order, block, y, states[block.name]);
    var t: nat :| a.merge(states[y], s, t) == states[y];
    assert MergeStates(order, states[y], s, t) == states[y];
    MergeIsUpperBound(states[y].places, s.places, order(states[y].places, s.places, t), c);
  }

  lemma {:induction false} WalkCovers(
      env: Env, order: KeyOrder, states: map<Label, State>, reached: set<Label>, path: seq<Label>)
    requires OrdersKeys(order)
    requires ForwardFixpoint(env.func, MoveAnalysis(env, order), states, reached)
    requires forall l :: l in states ==> StartsAtEntry(env.func, l, states[l])
    requires IsPath(env.func, path) && path[0] == env.func.blocks[0].name
    ensures path[|path| - 1] in reached
    ensures Covers(env, Trace(env, path), states[path[|path| - 1]].places)
    decreases |path|
  {
    hide Owned, Held, PathDroppable, StartsAtEntry;
    ReachedAlong(env, order, states, reached, path);
    if |path| == 1 {
      EntryCovers(env, states[path[0]]);
    } else {
      var init := path[..|path| - 1];
      var y := path[|path| - 1];
      assert IsPath(env.func, init);
      WalkCovers(env, order, states, reached, init);
      assert Edge(env.func, path[|path| - 2], y);
      var b := BlockNamed(env.func, init[|init| - 1]);
      ApplyAllCovers(env, Trace(env, init), BlockActions(env, b), states[b.name].places);
      StableEdge(env.func, MoveAnalysis(env, order), states, reached, b, y);
      forall p | PathDroppable(env, p) && Owned(env, Trace(env, path), p) ensures Held(states[y].places, p) {
        EdgeKeepsHeld(env, order, b, y, states, p);
      }
    }
  }

  /** Instruction `v` drops place `p`. */
  ghost predicate DropsPlace(env: Env, v: ValueId, p: Place) {
    InstActions(env, v) == [CheckDrop(p), MarkDropped(p)]
  }

  /** All that is done on a walk before instruction `j` of its last block. */
  ghost function TraceBefore(env: Env, path: seq<Label>, block: BasicBlock, j: nat): seq<Action>
    requires IsPath(env.func, path) && j <= |block.insts|
  {
    Trace(env, path) + InstsActions(env, block.insts[..j])
  }

  /** A drop of a place that some walk to it still owns is not found dead, and so is kept. */
  lemma NeededDropKept(
      env: Env, order: KeyOrder, states: map<Label, State>, reached: set<Label>,
      path: seq<Label>, b: nat, j: nat, p: Place)
    requires OrdersKeys(order) && PathDroppable(env, p) && ListedOnce(env.func)
    requires ForwardFixpoint(env.func, MoveAnalysis(env, order), states, reached)
    requires forall l :: l in states ==> StartsAtEntry(env.func, l, states[l])
    requires b < |env.func.blocks| && j < |env.func.blocks[b].insts|
    requires IsPathBetween(env.func, path, env.func.blocks[0].name, env.func.blocks[b].name)
    requires DropsPlace(env, env.func.blocks[b].insts[j], p)
    requires Owned(env, TraceBefore(env, path, env.func.blocks[b], j), p)
    ensures !FoundDead(env, states, env.func.blocks[b].insts[j])
  {
    hide Held, PathDroppable, Owned, StartsAtEntry, ApplyAll, Trace, FindsDeadDrop;
    var block := env.func.blocks[b];
    WalkCovers(env, order, states, reached, path);
    ApplyAllCovers(env, Trace(env, path), InstsActions(env, block.insts[..j]), states[block.name].places);
    var m := ApplyAll(env, InstsActions(env, block.insts[..j]), states[block.name].places);
    HeldIsNotDead(m, p);
    DropDead(env, block.insts[j], p, m);
    FoundDeadHere(env, states, b, j);
  }

  /** An instruction that is listed once can be found dead at that position only. */
  lemma FoundDeadHere(env: Env, states: map<Label, State>, b: nat, j: nat)
    requires ListedOnce(env.func) && b < |env.func.blocks| && j < |env.func.blocks[b].insts|
    requires env.func.blocks[b].name in states
    ensures var block := env.func.blocks[b]; var v := block.insts[j];
            FoundDead(env, states, v) <==>
              DeadIn(env, InstActions(env, v), ApplyAll(env, InstsActions(env, block.insts[..j]),
                states[block.name].places))
  {
    hide DeadIn, ApplyAll, InstActions;
    var block := env.func.blocks[b];
    var v := block.insts[j];
    var m := states[block.name].places;
    if FoundDead(env, states, v) {
      var b': nat :| b' < |env.func.blocks| && DeadInBlock(env, states, b', v);
      var j': nat :| j' < |env.func.blocks[b'].insts|
        && DeadAt(env, env.func.blocks[b'], states[env.func.blocks[b'].name].places, j', v);
      assert b' == b && j' == j;
    }
    if DeadIn(env, InstActions(env, v), ApplyAll(env, InstsActions(env, block.insts[..j]), m)) {
      assert DeadAt(env, block, m, j, v);
      assert DeadInBlock(env, states, b, v);
    }
  }

  lemma DropDead(env: Env, v: ValueId, p: Place, m: PlaceMap)
    requires DropsPlace(env, v, p)
    ensures DeadIn(env, InstActions(env, v), m) <==> FindsDeadDrop(CheckDrop(p), m)
  {
    var acts := InstActions(env, v);
    assert acts[..0] == [] && ApplyAll(env, acts[..0], m) == m;
    if FindsDeadDrop(CheckDrop(p), m) {
      assert FindsDeadDrop(acts[0], ApplyAll(env, acts[..0], m));
    }
  }

  // ----- what a removed drop can leave behind --------------------------------------------

  /** `take(s); s.f = make();` with an argument `s` that is dropped at the end. */
  function RefilledPart(): Function {
    Function(1, [BasicBlock("entry", [0, 1, 2, 3, 4, 5, 6], Some(Ret(None)))],
      [Alloca, Load(Value(0)), CallDirect("take", [Value(1)]), FieldPtr(Value(0), 0), CallDirect("make", []),
       Store(Value(3), Value(4)), Drop(Value(0), None)])
  }

  lemma RefilledPlaces(func: Function)
    requires func == RefilledPart()
    ensures PlaceOfValue(func, 0) == PlaceOfValue(func, 1) == Some(Place(0, []))
    ensures PlaceOfValue(func, 3) == Some(Projected(Place(0, []), Field(0)))
    ensures PlaceOfValue(func, 4) == None
  {
    assert func.blocks[0].insts == [0, 1, 2, 3, 4, 5, 6];
    assert 0 in func.blocks[0].insts && 1 in func.blocks[0].insts && 3 in func.blocks[0].insts;
    assert PlaceOfValue(func, 0) == Some(Place(0, []));
  }

  ghost predicate IsRefilled(env: Env) {
    env.func == RefilledPart() && env.places == PlacesOf(env.func) && env.copyable == {}
  }

  lemma RefilledActions(env: Env)
    requires IsRefilled(env)
    ensures var x := Place(0, []);
            && InstActions(env, 1) == [Check(x)] && InstActions(env, 2) == ArgsOf(env, [Value(1)])
            && InstActions(env, 3) == [] && InstActions(env, 4) == []
            && InstActions(env, 5) == [MarkLive(Projected(x, Field(0)))] && DropsPlace(env, 6, x)
            && 1 in env.places && env.places[1] == x
  {
    hide PlaceOfValue, ArgsOf;
    RefilledPlaces(env.func);
    assert 0 in env.places && 1 in env.places && 3 in env.places && 4 !in env.places;
    assert [] == ArgsOf(env, []) by { NoArgs(env); }
  }

  lemma NoArgs(env: Env)
    ensures ArgsOf(env, []) == []
  {}

  lemma OneArg(env: Env, v: ValueId)
    requires v in env.places && v !in env.copyable
    ensures ArgsOf(env, [Value(v)]) == [Check(env.places[v]), MarkMoved(env.places[v])]
  {
    assert [Value(v)][..0] == [];
  }

  /** A live local is checked and moved, and its field is stored to. */
  lemma MovedAndRefilled(env: Env, x: Place)
    requires x.projections == []
    ensures var f := Projected(x, Field(0)); var m: PlaceMap := map[x := Live]; var gone: PlaceMap := map[x := Moved];
            && !Flags(Check(x), m) && Apply(env, Check(x), m) == m && !Flags(MarkMoved(x), m)
            && Apply(env, MarkMoved(x), m) == gone && !Flags(MarkLive(f), gone)
            && Apply(env, MarkLive(f), gone) == gone[f := Live]
            && FindsDeadDrop(CheckDrop(x), gone[f := Live]) && !Flags(CheckDrop(x), gone[f := Live])
            && Apply(env, CheckDrop(x), gone[f := Live]) == gone[f := Live]
            && !Flags(MarkDropped(x), gone[f := Live])
  {
    var f := Projected(x, Field(0));
    assert Effective(map[x := Live], x) == Live;
    assert Overwrite(map[x := Live], x, Moved) == map[x := Moved];
    assert Parent(f) == x && !Ancestor(f, x) && f != x;
    assert Overwrite(map[x := Moved], f, Live) == map[x := Moved, f := Live];
    assert Inherited(map[x := Moved, f := Live], x) == Moved;
  }

  /** The tables before the seven instructions, none of which raises anything. */
  lemma RefilledTables(env: Env)
    requires IsRefilled(env)
    ensures EntryTable(env.func) == map[Place(0, []) := Live]
    ensures Straight(env, 6) == map[Place(0, []) := Moved, Projected(Place(0, []), Field(0)) := Live]
    ensures forall j :: 0 <= j < 7 ==>
      FlagSet(env, env.func.blocks[0].insts[j], InstActions(env, env.func.blocks[0].insts[j]), Straight(env, j)) == {}
  {
    hide InstActions, Flags, PlacesOf, FlagSet, Straight, ApplyAll, Apply, FindsDeadDrop;
    var x := Place(0, []);
    var f := Projected(x, Field(0));
    var m: PlaceMap := map[x := Live];
    var gone: PlaceMap := map[x := Moved];
    var insts := env.func.blocks[0].insts;
    assert 0 in insts && insts == [0, 1, 2, 3, 4, 5, 6];
    ArgumentPlace(env);
    AllocateKeeps(env);
    RefilledActions(env);
    MovedAndRefilled(env, x);
    OneArg(env, 1);
    OneAction(env, 1, Check(x), m);
    TwoActions(env, 2, Check(x), MarkMoved(x), m);
    NoActions(env, 3, gone);
    NoActions(env, 4, gone);
    OneAction(env, 5, MarkLive(f), gone);
    TwoActions(env, 6, CheckDrop(x), MarkDropped(x), gone[f := Live]);
    StraightStep(env, 1);
    StraightStep(env, 2);
    StraightStep(env, 3);
    StraightStep(env, 4);
    StraightStep(env, 5);
  }

  lemma RefilledListedOnce()
    ensures ListedOnce(RefilledPart())
  {}

  /** Generated code in which nothing is reported: the value stored to the field of a moved
      argument is live when the argument's drop is found dead. */
  lemma RefilledPartForgotten(env: Env, states: map<Label, State>)
    requires IsRefilled(env)
    requires "entry" in states && StartsAtEntry(env.func, "entry", states["entry"])
    ensures Straight(env, 6) == map[Place(0, []) := Moved, Projected(Place(0, []), Field(0)) := Live]
    ensures FoundDead(env, states, 6)
    ensures Report(env, states) == {}
  {
    hide InstActions, Flags, PlacesOf, FlagSet, Straight, ApplyAll, Apply, FindsDeadDrop, ListedOnce, FoundDead;
    assert env.func.blocks[0].name == "entry";
    OneBlockStarts(env, states);
    RefilledTables(env);
    OneBlockReport(env, states);
    RefilledActions(env);
    MovedAndRefilled(env, Place(0, []));
    StraightIs(env, 6);
    RefilledListedOnce();
    DropDead(env, 6, Place(0, []), Straight(env, 6));
    FoundDeadHere(env, states, 0, 6);
  }
}
