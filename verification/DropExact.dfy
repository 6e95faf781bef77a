/** When a drop is found dead: exactly when no walk to it leaves anything in the place, as long as
    no step meets the place's local in a state that is known only conditionally. */
module DropExact {
  import opened Wrappers
  import opened Mvir
  import opened Places
  import opened MoveState
  import opened MoveTransfer
  import opened ForwardDataflow
  import opened MoveSoundness
  import opened MoveTermination
  import opened BorrowCheckMoves
  import opened ReturnUses
  import opened DropSoundness

  // ----- tables that follow a walk -------------------------------------------------------

  predicate Usable(v: MoveState) {
    v.Live? || v.PartialMoved?
  }

  /** State `v` is what a walk with state `w` can be merged into. */
  predicate Follows(v: MoveState, w: MoveState) {
    v == w || v.ConditionallyMoved? || (Usable(v) && Usable(w))
  }

  /** About `q`, table `s` says what `w` says, or is not sure. */
  ghost predicate TracksAt(w: PlaceMap, s: PlaceMap, q: Place) {
    Follows(Inherited(s, q), Inherited(w, q)) && (q in w ==> q in s)
  }

  /** The same about local `x` and all its parts. */
  ghost predicate Tracks(w: PlaceMap, s: PlaceMap, x: ValueId) {
    forall q: Place :: q.local == x ==> TracksAt(w, s, q)
  }

  /** No entry about `x` or a part of it is conditional. */
  ghost predicate NoneConditional(m: PlaceMap, x: ValueId) {
    forall k :: k in m && k.local == x ==> !m[k].ConditionallyMoved?
  }

  /** The action does not depend on what the table is not sure of: it drops nothing of `x` that is
      conditionally moved, moves no part of `x` while its fields are watched and an entry is
      conditional, and does not allocate `x` anew with entries about its parts. */
  ghost predicate Certain(env: Env, act: Action, s: PlaceMap, x: ValueId) {
    act.place.local == x ==>
      match act
      case MarkDropped(q) => !Inherited(s, q).ConditionallyMoved?
      case MarkMoved(q) => q.projections != [] && CanCollapse(env, Parent(q)) ==> NoneConditional(s, x)
      case Allocate(q, _) => forall k :: k in s && k.local == x ==> k == q
      case _ => true
  }

  // ----- writing -------------------------------------------------------------------------

  lemma OverwriteTracks(w: PlaceMap, s: PlaceMap, q: Place, v: MoveState, x: ValueId)
    requires Tracks(w, s, x)
    ensures Tracks(Overwrite(w, q, v), Overwrite(s, q, v), x)
  {
    hide Follows, Inherited;
    forall r: Place | r.local == x
      ensures TracksAt(Overwrite(w, q, v), Overwrite(s, q, v), r)
    {
      InheritedOverwrite(w, q, v, r);
      InheritedOverwrite(s, q, v, r);
      FollowsSelf(v);
    }
  }

  lemma FollowsSelf(v: MoveState)
    ensures Follows(v, v)
  {}

  lemma {:induction false} CertainInherited(m: PlaceMap, q: Place)
    requires NoneConditional(m, q.local)
    ensures !Inherited(m, q).ConditionallyMoved?
    decreases |q.projections|
  {
    if q !in m && q.projections != [] { CertainInherited(m, Parent(q)); }
  }

  lemma FieldsAlike(w: PlaceMap, s: PlaceMap, a: Place, fields: seq<nat>)
    requires Tracks(w, s, a.local) && NoneConditional(s, a.local)
    ensures AllFieldsGone(w, a, fields) <==> AllFieldsGone(s, a, fields)
  {
    hide Follows, FieldGone, Tracks, NoneConditional;
    forall i | 0 <= i < |fields| ensures FieldGone(w, a, fields[i]) <==> FieldGone(s, a, fields[i]) {
      FieldAlike(w, s, a, fields[i]);
    }
  }

  lemma FieldAlike(w: PlaceMap, s: PlaceMap, a: Place, f: nat)
    requires Tracks(w, s, a.local) && NoneConditional(s, a.local)
    ensures FieldGone(w, a, f) <==> FieldGone(s, a, f)
  {
    hide Effective, Inherited;
    var q := Projected(a, Field(f));
    CertainInherited(s, q);
    EffectiveIs(w, q);
    EffectiveIs(s, q);
    assert TracksAt(w, s, q);
  }

  lemma {:induction false} CollapseTracks(env: Env, q: Place, w: PlaceMap, s: PlaceMap)
    requires Tracks(w, s, q.local) && NoneConditional(s, q.local)
    ensures Tracks(Collapse(env, q, w), Collapse(env, q, s), q.local)
    decreases |q.projections|
  {
    hide Tracks, AllFieldsGone;
    if q.projections != [] {
      var a := Parent(q);
      if CanCollapse(env, a) {
        FieldsAlike(w, s, a, env.droppable[a]);
        OverwriteTracks(w, s, a, Moved, q.local);
        CollapseTracks(env, a, Overwrite(w, a, Moved), Overwrite(s, a, Moved));
      }
    }
  }

  // ----- a first store to a part ---------------------------------------------------------

  lemma {:induction false} UnsetFromLocal(m: PlaceMap, r: Place)
    requires UnsetAreLocals(m)
    ensures var y := Place(r.local, []);
            Inherited(m, r).Uninitialized? ==> y in m && m[y].Uninitialized?
    decreases |r.projections|
  {
    if r in m { assert r.projections == [] ==> r == Place(r.local, []); }
    else if r.projections != [] { UnsetFromLocal(m, Parent(r)); }
  }

  /** Making an uninitialized local live changes what was uninitialized, and nothing else. */
  lemma {:induction false} PromotedIs(m: PlaceMap, y: Place, r: Place)
    requires UnsetAreLocals(m) && y.projections == [] && y in m && m[y].Uninitialized? && r.local == y.local
    ensures Inherited(m[y := Live], r) == if Inherited(m, r).Uninitialized? then Live else Inherited(m, r)
    decreases |r.projections|
  {
    if r in m || r.projections == [] {
      assert r.projections == [] ==> r == y;
    } else {
      PromotedIs(m, y, Parent(r));
    }
  }

  /** What a store to a part does to its parent. */
  function Promoted(m: PlaceMap, y: Place): PlaceMap {
    if y in m && m[y] == Uninitialized then m[y := Live] else m
  }

  lemma PromotedTracks(w: PlaceMap, s: PlaceMap, y: Place)
    requires Tracks(w, s, y.local) && UnsetAreLocals(w) && UnsetAreLocals(s)
    ensures Tracks(Promoted(w, y), Promoted(s, y), y.local)
  {
    forall r: Place | r.local == y.local ensures TracksAt(Promoted(w, y), Promoted(s, y), r) {
      UnsetFromLocal(w, r);
      UnsetFromLocal(s, r);
      assert TracksAt(w, s, y) && TracksAt(w, s, r);
      if y in w && w[y].Uninitialized? { PromotedIs(w, y, r); }
      if y in s && s[y].Uninitialized? { PromotedIs(s, y, r); }
    }
  }

  // ----- one action ----------------------------------------------------------------------

  lemma {:induction false} OnlyEntry(m: PlaceMap, q: Place, v: MoveState, r: Place)
    requires forall k :: k in m && k.local == q.local ==> k == q
    requires r.local == q.local
    ensures Inherited(m[q := v], r) == if Ancestor(q, r) then v else Live
    decreases |r.projections|
  {
    if r != q && r.projections != [] {
      AncestorParent(q, r);
      OnlyEntry(m, q, v, Parent(r));
    }
  }

  lemma AllocateTracks(w: PlaceMap, s: PlaceMap, q: Place, v: MoveState)
    requires Tracks(w, s, q.local) && forall k :: k in s && k.local == q.local ==> k == q
    ensures Tracks(w[q := v], s[q := v], q.local)
  {
    forall r: Place | r.local == q.local ensures TracksAt(w[q := v], s[q := v], r) {
      OnlyEntry(w, q, v, r);
      OnlyEntry(s, q, v, r);
    }
  }

  lemma AsideTracks(w: PlaceMap, s: PlaceMap, w': PlaceMap, s': PlaceMap, x: ValueId)
    requires Tracks(w, s, x) && SameAbout(w, w', x) && SameAbout(s, s', x)
    ensures Tracks(w', s', x)
  {
    forall r: Place | r.local == x ensures TracksAt(w', s', r) {
      InheritedAside(w, w', r);
      InheritedAside(s, s', r);
    }
  }

  lemma MoveTracks(env: Env, q: Place, w: PlaceMap, s: PlaceMap)
    requires Tracks(w, s, q.local) && Certain(env, MarkMoved(q), s, q.local)
    ensures Tracks(Apply(env, MarkMoved(q), w), Apply(env, MarkMoved(q), s), q.local)
  {
    hide Tracks, TracksAt;
    OverwriteTracks(w, s, q, Moved, q.local);
    if q.projections != [] && CanCollapse(env, Parent(q)) {
      CollapseTracks(env, q, Overwrite(w, q, Moved), Overwrite(s, q, Moved));
    }
  }

  lemma StoreTracks(env: Env, q: Place, w: PlaceMap, s: PlaceMap)
    requires Tracks(w, s, q.local) && UnsetAreLocals(w) && UnsetAreLocals(s)
    ensures Tracks(Apply(env, MarkLive(q), w), Apply(env, MarkLive(q), s), q.local)
  {
    hide Tracks, TracksAt;
    OverwriteTracks(w, s, q, Live, q.local);
    if q.projections != [] { PromotedTracks(Overwrite(w, q, Live), Overwrite(s, q, Live), Parent(q)); }
  }

  lemma DropTracks(env: Env, q: Place, w: PlaceMap, s: PlaceMap)
    requires Tracks(w, s, q.local) && Certain(env, MarkDropped(q), s, q.local)
    ensures Tracks(Apply(env, MarkDropped(q), w), Apply(env, MarkDropped(q), s), q.local)
  {
    hide Effective, Inherited, Overwrite;
    OverwriteTracks(w, s, q, Dropped, q.local);
    EffectiveIs(w, q);
    EffectiveIs(s, q);
    assert TracksAt(w, s, q);
  }

  lemma ApplyTracks(env: Env, act: Action, w: PlaceMap, s: PlaceMap, x: ValueId)
    requires Tracks(w, s, x) && UnsetAreLocals(w) && UnsetAreLocals(s) && Certain(env, act, s, x)
    ensures Tracks(Apply(env, act, w), Apply(env, act, s), x)
  {
    hide Tracks, SameAbout, UnsetAreLocals;
    if act.place.local != x {
      ApplyAside(env, act, w, x);
      ApplyAside(env, act, s, x);
      AsideTracks(w, s, Apply(env, act, w), Apply(env, act, s), x);
    } else {
      match act
      case MarkMoved(q) => MoveTracks(env, q, w, s);
      case MarkLive(q) => StoreTracks(env, q, w, s);
      case MarkDropped(q) => DropTracks(env, q, w, s);
      case Allocate(q, v) => AllocateTracks(w, s, q, v);
      case _ =>
    }
  }

  // ----- lists of actions ----------------------------------------------------------------

  ghost predicate AllCertain(env: Env, acts: seq<Action>, s: PlaceMap, x: ValueId) {
    forall k :: 0 <= k < |acts| ==> Certain(env, acts[k], ApplyAll(env, acts[..k], s), x)
  }

  lemma CertainPrefix(env: Env, acts: seq<Action>, n: nat, s: PlaceMap, x: ValueId)
    requires n <= |acts| && AllCertain(env, acts, s, x)
    ensures AllCertain(env, acts[..n], s, x)
  {
    forall k | 0 <= k < n ensures Certain(env, acts[..n][k], ApplyAll(env, acts[..n][..k], s), x) {
      assert acts[..n][..k] == acts[..k];
    }
  }

  lemma {:induction false} ApplyAllTracks(env: Env, acts: seq<Action>, w: PlaceMap, s: PlaceMap, x: ValueId)
    requires Tracks(w, s, x) && UnsetAreLocals(w) && UnsetAreLocals(s) && AllCertain(env, acts, s, x)
    requires Within(env, acts)
    ensures Tracks(ApplyAll(env, acts, w), ApplyAll(env, acts, s), x)
    decreases |acts|
  {
    hide Tracks, Certain, UnsetAreLocals, Universe, Apply;
    if acts != [] {
      var init := acts[..|acts| - 1];
      CertainPrefix(env, acts, |init|, s, x);
      ApplyAllTracks(env, init, w, s, x);
      ApplyAllWithin(env, init, w);
      ApplyAllWithin(env, init, s);
      ApplyTracks(env, acts[|acts| - 1], ApplyAll(env, init, w), ApplyAll(env, init, s), x);
    }
  }

  // ----- walks ---------------------------------------------------------------------------

  /** What the actions of a walk leave, on their own and without any merge. */
  ghost function WalkTable(env: Env, acts: seq<Action>): PlaceMap {
    ApplyAll(env, acts, EntryTable(env.func))
  }

  /** In every block that can be reached, every action is certain about `x`. */
  ghost predicate CertainAbout(env: Env, states: map<Label, State>, reached: set<Label>, x: ValueId) {
    forall b ::
      0 <= b < |env.func.blocks| && env.func.blocks[b].name in reached && env.func.blocks[b].name in states ==>
      AllCertain(env, BlockActions(env, env.func.blocks[b]), states[env.func.blocks[b].name].places, x)
  }

  lemma {:induction false} EntryStates(func: Function, n: nat)
    requires n <= |func.values|
    ensures forall k :: k in EntryPlaces(func, n) ==>
      EntryPlaces(func, n)[k].Live? || EntryPlaces(func, n)[k].Uninitialized?
  {
    if n > 0 { EntryStates(func, n - 1); }
  }

  lemma {:induction false} EntryInherited(func: Function, q: Place)
    ensures var v := Inherited(EntryTable(func), q); v.Live? || v.Uninitialized?
    decreases |q.projections|
  {
    EntryStates(func, |func.values|);
    if q.projections != [] { EntryInherited(func, Parent(q)); }
  }

  lemma EntryTracks(func: Function, s: PlaceMap, x: ValueId)
    requires AboveEntry(func, s)
    ensures Tracks(EntryTable(func), s, x)
  {
    forall q: Place | q.local == x ensures TracksAt(EntryTable(func), s, q) {
      EntryInherited(func, q);
      assert Le(Effective(EntryTable(func), q), Effective(s, q));
    }
  }

  lemma RaisedTracks(w: PlaceMap, flow: PlaceMap, s: PlaceMap, x: ValueId, q: Place)
    requires Tracks(w, flow, x) && q.local == x
    requires Le(Effective(flow, q), Effective(s, q)) && flow.Keys <= s.Keys
    ensures TracksAt(w, s, q)
  {
    hide Le, Follows, Effective;
    assert TracksAt(w, flow, q);
    EffectiveIs(flow, q);
    EffectiveIs(s, q);
    RaisedFollows(Inherited(flow, q), Inherited(s, q), Effective(flow, q), Effective(s, q), Inherited(w, q));
  }

  lemma EffectiveIs(m: PlaceMap, q: Place)
    ensures Effective(m, q) == Inherited(m, q) || (Inherited(m, q).Live? && Effective(m, q).PartialMoved?)
  {}

  lemma RaisedFollows(flow: MoveState, s: MoveState, flowEff: MoveState, sEff: MoveState, v: MoveState)
    requires flowEff == flow || (flow.Live? && flowEff.PartialMoved?)
    requires sEff == s || (s.Live? && sEff.PartialMoved?)
    requires Le(flowEff, sEff) && Follows(flow, v)
    ensures Follows(s, v)
  {}

  lemma EdgeTracks(
      env: Env, order: KeyOrder, block: BasicBlock, y: Label, states: map<Label, State>, w: PlaceMap, x: ValueId)
    requires OrdersKeys(order)
    requires block.name in states && y in states
    requires EdgeStable(MoveAnalysis(env, order), block, y, states)
    requires Tracks(w, ApplyAll(env, BlockActions(env, block), states[block.name].places), x)
    ensures Tracks(w, states[y].places, x)
  {
    hide Follows, Effective, ApplyAll, TracksAt, Inherited;
    var flow := ApplyAll(env, BlockActions(env, block), states[block.name].places);
    forall q: Place | q.local == x
      ensures TracksAt(w, states[y].places, q)
    {
      EdgeRaises(env, order, block, y, states, q);
      RaisedTracks(w, flow, states[y].places, x, q);
    }
  }

  lemma {:induction false} TraceWithin(env: Env, path: seq<Label>)
    requires IsPath(env.func, path)
    ensures Within(env, Trace(env, path))
    decreases |path|
  {
    if |path| > 1 {
      var init := path[..|path| - 1];
      assert IsPath(env.func, init);
      TraceWithin(env, init);
      assert Edge(env.func, path[|path| - 2], path[|path| - 1]);
      BlockWithin(env, BlockNamed(env.func, init[|init| - 1]));
    }
  }

  lemma WalkUnset(env: Env, path: seq<Label>)
    requires IsPath(env.func, path)
    ensures UnsetAreLocals(WalkTable(env, Trace(env, path)))
  {
    TraceWithin(env, path);
    EntryWithin(env, |env.func.values|);
    ApplyAllWithin(env, Trace(env, path), EntryTable(env.func));
  }

  lemma {:induction false} WalkTracks(
      env: Env, order: KeyOrder, states: map<Label, State>, reached: set<Label>, path: seq<Label>, x: ValueId)
    requires OrdersKeys(order)
    requires ForwardFixpoint(env.func, MoveAnalysis(env, order), states, reached)
    requires forall l :: l in states ==> StartsAtEntry(env.func, l, states[l]) && UnsetAreLocals(states[l].places)
    requires CertainAbout(env, states, reached, x)
    requires IsPath(env.func, path) && path[0] == env.func.blocks[0].name
    ensures path[|path| - 1] in reached
    ensures Tracks(WalkTable(env, Trace(env, path)), states[path[|path| - 1]].places, x)
    decreases |path|
  {
    hide Tracks, UnsetAreLocals, StartsAtEntry, AllCertain, Universe, Within;
    ReachedAlong(env, order, states, reached, path);
    if |path| == 1 {
      StartsAbove(env.func, path[0], states[path[0]]);
      EntryTracks(env.func, states[path[0]].places, x);
    } else {
      var init := path[..|path| - 1];
      var y := path[|path| - 1];
      assert IsPath(env.func, init);
      WalkTracks(env, order, states, reached, init, x);
      assert Edge(env.func, path[|path| - 2], y);
      var b := BlockNamed(env.func, init[|init| - 1]);
      WalkUnset(env, init);
      BlockWithin(env, b);
      ApplyAllTracks(env, BlockActions(env, b), WalkTable(env, Trace(env, init)), states[b.name].places, x);
      ApplyAllConcat(env, Trace(env, init), BlockActions(env, b), EntryTable(env.func));
      StableEdge(env.func, MoveAnalysis(env, order), states, reached, b, y);
      EdgeTracks(env, order, b, y, states, WalkTable(env, Trace(env, path)), x);
    }
  }

  lemma StartsAbove(func: Function, l: Label, s: State)
    requires IsEntry(func, l) && StartsAtEntry(func, l, s)
    ensures AboveEntry(func, s.places)
  {}

  // ----- drops ---------------------------------------------------------------------------

  /** The walk leaves something in `p` before instruction `j` of its last block. */
  ghost predicate Leaves(env: Env, path: seq<Label>, block: BasicBlock, j: nat, p: Place)
    requires IsPath(env.func, path) && j <= |block.insts|
  {
    Alive(Inherited(WalkTable(env, TraceBefore(env, path, block, j)), p))
  }

  /** What a walk owns it leaves there. */
  lemma OwnedIsLeft(env: Env, acts: seq<Action>, p: Place)
    requires |env.func.blocks| > 0 && PathDroppable(env, p) && Owned(env, acts, p)
    ensures Alive(Inherited(WalkTable(env, acts), p))
  {
    var m := EntryTable(env.func);
    EntryCovers(env, State(false, m));
    ApplyAllCovers(env, [], acts, m);
    assert [] + acts == acts;
    AncestorSelf(p);
    assert Held(WalkTable(env, acts), p);
  }

  /** Instruction `j` of the block drops `p`: its actions in the block's list. */
  lemma DropSplits(env: Env, block: BasicBlock, j: nat, p: Place, m: PlaceMap)
    requires j < |block.insts| && DropsPlace(env, block.insts[j], p)
    ensures var pre, acts := InstsActions(env, block.insts[..j]), BlockActions(env, block);
            && |pre| + 1 < |acts| && acts[..|pre|] == pre && acts[|pre| + 1] == MarkDropped(p)
            && ApplyAll(env, acts[..|pre| + 1], m) == ApplyAll(env, pre, m)
  {
    hide InstActions, InstsActions;
    var pre, acts := InstsActions(env, block.insts[..j]), BlockActions(env, block);
    InstsSplit(env, block.insts, j);
    assert acts[..|pre|] == pre;
    assert acts[..|pre| + 1] == pre + [CheckDrop(p)];
    ApplyAllConcat(env, pre, [CheckDrop(p)], m);
    OneAction(env, 0, CheckDrop(p), ApplyAll(env, pre, m));
  }

  lemma AtDrop(
      env: Env, order: KeyOrder, states: map<Label, State>, reached: set<Label>, path: seq<Label>,
      block: BasicBlock, j: nat, p: Place)
    requires OrdersKeys(order)
    requires ForwardFixpoint(env.func, MoveAnalysis(env, order), states, reached)
    requires forall l :: l in states ==> StartsAtEntry(env.func, l, states[l]) && UnsetAreLocals(states[l].places)
    requires CertainAbout(env, states, reached, p.local)
    requires block in env.func.blocks && j < |block.insts| && DropsPlace(env, block.insts[j], p)
    requires IsPathBetween(env.func, path, env.func.blocks[0].name, block.name)
    ensures block.name in states
    ensures FindsDeadDrop(CheckDrop(p), ApplyAll(env, InstsActions(env, block.insts[..j]), states[block.name].places))
      <==> !Leaves(env, path, block, j, p)
  {
    hide Tracks, Certain, UnsetAreLocals, StartsAtEntry, InstsActions, InstActions, ApplyAll, Trace, FindsDeadDrop,
      BlockActions;
    WalkTracks(env, order, states, reached, path, p.local);
    var m := states[block.name].places;
    var pre, acts := InstsActions(env, block.insts[..j]), BlockActions(env, block);
    var w, s := WalkTable(env, Trace(env, path)), ApplyAll(env, pre, m);
    DropSplits(env, block, j, p, m);
    assert AllCertain(env, acts, m, p.local);
    CertainPrefix(env, acts, |pre|, m, p.local);
    InstsWithin(env, block.insts[..j]);
    WalkUnset(env, path);
    ApplyAllTracks(env, pre, w, m, p.local);
    ApplyAllConcat(env, Trace(env, path), pre, EntryTable(env.func));
    assert Certain(env, acts[|pre| + 1], ApplyAll(env, acts[..|pre| + 1], m), p.local);
    CertainDrop(env, p, ApplyAll(env, pre, w), s);
  }

  lemma CertainDrop(env: Env, p: Place, w: PlaceMap, s: PlaceMap)
    requires Tracks(w, s, p.local) && Certain(env, MarkDropped(p), s, p.local)
    ensures FindsDeadDrop(CheckDrop(p), s) <==> !Alive(Inherited(w, p))
  {
    hide Effective, Inherited;
    EffectiveIs(s, p);
    assert TracksAt(w, s, p);
  }

  /** A drop that can be reached is found dead if and only if no walk to it leaves anything in the
      place it drops.  This asks that every action is certain about the place's local. */
  lemma DeadIffNothingLeft(
      env: Env, order: KeyOrder, states: map<Label, State>, reached: set<Label>, b: nat, j: nat, p: Place)
    requires OrdersKeys(order) && ListedOnce(env.func)
    requires ForwardFixpoint(env.func, MoveAnalysis(env, order), states, reached)
    requires forall l :: l in states ==> StartsAtEntry(env.func, l, states[l]) && UnsetAreLocals(states[l].places)
    requires CertainAbout(env, states, reached, p.local)
    requires b < |env.func.blocks| && j < |env.func.blocks[b].insts|
    requires DropsPlace(env, env.func.blocks[b].insts[j], p) && Reachable(env.func, env.func.blocks[b].name)
    ensures FoundDead(env, states, env.func.blocks[b].insts[j]) <==>
      forall path :: IsPathBetween(env.func, path, env.func.blocks[0].name, env.func.blocks[b].name) ==>
        !Leaves(env, path, env.func.blocks[b], j, p)
  {
    hide Leaves, UnsetAreLocals, StartsAtEntry, ApplyAll, FindsDeadDrop, FoundDead, CertainAbout;
    var block := env.func.blocks[b];
    var m := ApplyAll(env, InstsActions(env, block.insts[..j]), states[block.name].places);
    DropDead(env, block.insts[j], p, m);
    FoundDeadHere(env, states, b, j);
    forall path | IsPathBetween(env.func, path, env.func.blocks[0].name, block.name)
      ensures FindsDeadDrop(CheckDrop(p), m) <==> !Leaves(env, path, block, j, p)
    {
      AtDrop(env, order, states, reached, path, block, j, p);
    }
    var some :| IsPathBetween(env.func, some, env.func.blocks[0].name, block.name);
  }

  // ----- certainty is needed -------------------------------------------------------------

  /** Local 0 is filled on one of two ways, dropped where they meet, stored to in part, and dropped
      again. */
  function DroppedUnsure(): Function {
    Function(0,
      [BasicBlock("entry", [0], Some(CondBr(Boolean(true), "fill", "join"))),
       BasicBlock("fill", [1], Some(Br("join"))),
       BasicBlock("join", [2, 3, 4, 5], Some(Ret(None)))],
      [Alloca, Store(Value(0), Number("1")), Drop(Value(0), None), FieldPtr(Value(0), 0),
       Store(Value(3), Number("2")), Drop(Value(0), None)])
  }

  ghost predicate IsUnsure(env: Env) {
    env.func == DroppedUnsure() && env.places == PlacesOf(env.func) && env.copyable == {}
  }

  lemma UnsurePlaces(func: Function)
    requires func == DroppedUnsure()
    ensures PlaceOfValue(func, 0) == Some(Place(0, []))
    ensures PlaceOfValue(func, 3) == Some(Projected(Place(0, []), Field(0)))
  {
    assert func.blocks[0].insts == [0] && func.blocks[2].insts == [2, 3, 4, 5];
    assert 0 in func.blocks[0].insts && 3 in func.blocks[2].insts;
    assert PlaceOfValue(func, 0) == Some(Place(0, []));
  }

  lemma UnsureActions(env: Env)
    requires IsUnsure(env)
    ensures var x := Place(0, []);
            && InstActions(env, 0) == [Allocate(x, Uninitialized)] && InstActions(env, 1) == [MarkLive(x)]
            && DropsPlace(env, 2, x) && InstActions(env, 3) == []
            && InstActions(env, 4) == [MarkLive(Projected(x, Field(0)))] && DropsPlace(env, 5, x)
  {
    hide PlaceOfValue;
    UnsurePlaces(env.func);
    assert 0 in env.places && 3 in env.places;
    assert PlaceOf(env, Value(0)) == Some(Place(0, []))
      && PlaceOf(env, Value(3)) == Some(Projected(Place(0, []), Field(0)));
  }

  lemma UnsureBlocks(env: Env)
    requires IsUnsure(env)
    ensures var x := Place(0, []); var blocks := env.func.blocks;
            && BlockActions(env, blocks[0]) == [Allocate(x, Uninitialized)]
            && BlockActions(env, blocks[1]) == [MarkLive(x)]
            && InstsActions(env, blocks[2].insts[..3])
              == [CheckDrop(x), MarkDropped(x), MarkLive(Projected(x, Field(0)))]
  {
    hide InstActions, InstsActions;
    UnsureActions(env);
    var blocks := env.func.blocks;
    OneInst(env, 0);
    OneInst(env, 1);
    OneInst(env, 4);
    assert blocks[2].insts[..3] == [2, 3, 4];
    FirstInst(env, [2, 3, 4]);
    FirstInst(env, [3, 4]);
    assert TermActions(env, blocks[0].terminator.value) == [] && TermActions(env, blocks[1].terminator.value) == [];
  }

  lemma FirstInst(env: Env, insts: seq<ValueId>)
    requires insts != []
    ensures InstsActions(env, insts) == InstActions(env, insts[0]) + InstsActions(env, insts[1..])
  {}

  lemma OneInst(env: Env, v: ValueId)
    ensures InstsActions(env, [v]) == InstActions(env, v)
  {
    assert [v][1..] == [];
  }

  /** Where the two ways meet the local is conditional. */
  lemma MeetsUnsure(env: Env, order: KeyOrder, states: map<Label, State>, reached: set<Label>)
    requires IsUnsure(env) && OrdersKeys(order)
    requires ForwardFixpoint(env.func, MoveAnalysis(env, order), states, reached)
    ensures "join" in states && "join" in reached && Inherited(states["join"].places, Place(0, [])).ConditionallyMoved?
  {
    hide InstActions, InstsActions, EdgeStable, Inherited;
    var x := Place(0, []);
    var blocks := env.func.blocks;
    UnsureBlocks(env);
    assert Edge(env.func, "entry", "fill") by { assert "fill" in Successors(blocks[0]); }
    assert Edge(env.func, "entry", "join") by { assert "join" in Successors(blocks[0]); }
    assert Edge(env.func, "fill", "join") by { assert "join" in Successors(blocks[1]); }
    StableEdge(env.func, MoveAnalysis(env, order), states, reached, blocks[0], "join");
    StableEdge(env.func, MoveAnalysis(env, order), states, reached, blocks[0], "fill");
    StableEdge(env.func, MoveAnalysis(env, order), states, reached, blocks[1], "join");
    EdgeRaises(env, order, blocks[0], "join", states, x);
    EdgeRaises(env, order, blocks[1], "join", states, x);
    OneAction(env, 0, Allocate(x, Uninitialized), states["entry"].places);
    OneAction(env, 0, MarkLive(x), states["fill"].places);
    AfterAllocate(states["entry"].places, x);
    AfterStore(states["fill"].places, x);
    EffectiveIs(states["join"].places, x);
  }

  lemma AfterAllocate(m: PlaceMap, x: Place)
    ensures Effective(m[x := Uninitialized], x) == Uninitialized
  {}

  lemma AfterStore(m: PlaceMap, x: Place)
    ensures Effective(Overwrite(m, x, Live), x) == Live
  {}

  lemma ThreeActions(env: Env, a: Action, b: Action, c: Action, m: PlaceMap)
    ensures ApplyAll(env, [a, b, c], m) == Apply(env, c, Apply(env, b, Apply(env, a, m)))
  {
    hide Apply;
    assert [a, b, c][..2] == [a, b];
    TwoActions(env, 0, a, b, m);
  }

  lemma DropThenPart(env: Env, x: Place, m: PlaceMap)
    requires x.projections == []
    ensures var f := Projected(x, Field(0)); var r := ApplyAll(env, [CheckDrop(x), MarkDropped(x), MarkLive(f)], m);
            && (Inherited(m, x).ConditionallyMoved? ==> FindsDeadDrop(CheckDrop(x), r))
            && (x in m && m[x].Uninitialized? ==> Alive(Inherited(r, x)))
  {
    hide Apply, ApplyAll, Inherited;
    var f := Projected(x, Field(0));
    ThreeActions(env, CheckDrop(x), MarkDropped(x), MarkLive(f), m);
    CheckChangesNothing(env, x, m);
    var d := Apply(env, MarkDropped(x), m);
    DropFirst(env, x, m);
    PartSecond(env, x, d);
  }

  lemma CheckChangesNothing(env: Env, x: Place, m: PlaceMap)
    ensures Apply(env, CheckDrop(x), m) == m
  {}

  lemma DropFirst(env: Env, x: Place, m: PlaceMap)
    requires x.projections == []
    ensures var d := Apply(env, MarkDropped(x), m);
            && (Inherited(m, x).ConditionallyMoved? ==> x in d && d[x].Dropped?)
            && (x in m && m[x].Uninitialized? ==> d == m)
  {}

  lemma PartSecond(env: Env, x: Place, d: PlaceMap)
    requires x.projections == []
    ensures var r := Apply(env, MarkLive(Projected(x, Field(0))), d);
            && (x in d && d[x].Dropped? ==> FindsDeadDrop(CheckDrop(x), r))
            && (x in d && d[x].Uninitialized? ==> Alive(Inherited(r, x)))
  {
    var f := Projected(x, Field(0));
    assert Parent(f) == x && !Ancestor(f, x) && f != x;
  }

  lemma UnsureWalk(env: Env)
    requires IsUnsure(env) && DistinctLabels(env.func.blocks)
    ensures IsPathBetween(env.func, ["entry", "join"], "entry", "join")
    ensures Leaves(env, ["entry", "join"], env.func.blocks[2], 3, Place(0, []))
  {
    hide InstActions, ApplyAll, Alive, Inherited, BlockActions, InstsActions, EntryPlaces, Trace;
    var x := Place(0, []);
    UnsureBlocks(env);
    UnsureTrace(env);
    var head, rest := BlockActions(env, env.func.blocks[0]), InstsActions(env, env.func.blocks[2].insts[..3]);
    UnsureEntry(env.func);
    ApplyAllConcat(env, head, rest, EntryTable(env.func));
    OneAction(env, 0, Allocate(x, Uninitialized), EntryTable(env.func));
    var unset: PlaceMap := map[x := Uninitialized];
    assert Apply(env, Allocate(x, Uninitialized), EntryTable(env.func)) == unset;
    DropThenPart(env, x, unset);
    assert Inherited(ApplyAll(env, head + rest, EntryTable(env.func)), x) == Inherited(ApplyAll(env, rest, unset), x);
  }

  lemma UnsureTrace(env: Env)
    requires IsUnsure(env) && DistinctLabels(env.func.blocks)
    ensures |env.func.blocks| == 3 && IsPathBetween(env.func, ["entry", "join"], "entry", "join")
    ensures Trace(env, ["entry", "join"]) == BlockActions(env, env.func.blocks[0])
  {
    hide BlockActions;
    var blocks := env.func.blocks;
    var path, init := ["entry", "join"], ["entry"];
    assert Edge(env.func, "entry", "join") by { assert "join" in Successors(blocks[0]); }
    assert "entry" in Labels(env.func) by { assert blocks[0].name == "entry"; }
    assert path[..1] == init && IsPath(env.func, init) && BlockNamed(env.func, "entry") == blocks[0];
    assert Trace(env, init) == [];
  }

  lemma UnsureEntry(func: Function)
    requires func == DroppedUnsure()
    ensures EntryTable(func) == map[Place(0, []) := Uninitialized]
  {
    assert EntryPlaces(func, 6) == EntryPlaces(func, 5) == EntryPlaces(func, 4) == EntryPlaces(func, 3)
      == EntryPlaces(func, 2) == EntryPlaces(func, 1);
    assert EntryPlaces(func, 0) == map[] && CountAllocas(func, 0) == 0;
  }

  lemma FirstDropReported(env: Env, states: map<Label, State>)
    requires IsUnsure(env) && "join" in states
    requires Inherited(states["join"].places, Place(0, [])).ConditionallyMoved?
    ensures Flag(2, Place(0, [])) in Report(env, states)
  {
    hide InstActions, Inherited;
    UnsureActions(env);
    var block, m := env.func.blocks[2], states["join"].places;
    var at := Site(2, 0, 0);
    assert block.insts[..0] == [] && InstActions(env, 2)[..0] == [];
    assert TableAt(env, block, m, 0, 0) == m;
    SiteRaises(env, states, at);
  }

  lemma UnsureListedOnce()
    ensures ListedOnce(DroppedUnsure())
  {
    var blocks := DroppedUnsure().blocks;
    assert forall b, j :: 0 <= b < |blocks| && 0 <= j < |blocks[b].insts| ==>
      blocks[b].insts[j] == b + j && (b < 2 ==> j == 0);
  }

  /** The second drop is found dead though a walk leaves the stored part in the local.  The first
      one, which met a conditional state, is reported. */
  lemma CertaintyNeeded(env: Env, order: KeyOrder, states: map<Label, State>, reached: set<Label>)
    requires IsUnsure(env) && OrdersKeys(order)
    requires ForwardFixpoint(env.func, MoveAnalysis(env, order), states, reached)
    ensures FoundDead(env, states, 5) && Flag(2, Place(0, [])) in Report(env, states)
    ensures IsPathBetween(env.func, ["entry", "join"], "entry", "join")
    ensures Leaves(env, ["entry", "join"], env.func.blocks[2], 3, Place(0, []))
  {
    hide InstActions, ApplyAll, FindsDeadDrop, Alive, Report, FoundDead, Inherited, EntryPlaces, ListedOnce, IsPath,
      Leaves;
    var x := Place(0, []);
    var blocks := env.func.blocks;
    var m := states["join"].places;
    UnsureActions(env);
    UnsureBlocks(env);
    MeetsUnsure(env, order, states, reached);
    DropThenPart(env, x, m);
    DropDead(env, 5, x, ApplyAll(env, InstsActions(env, blocks[2].insts[..3]), m));
    UnsureListedOnce();
    FoundDeadHere(env, states, 2, 3);
    UnsureWalk(env);
    FirstDropReported(env, states);
  }
}
