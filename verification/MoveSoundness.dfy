/** No use after move is missed: what a move leaves behind survives every action, every
    merge and hence every walk through the computed fixpoint. */
module MoveSoundness {
  import opened Wrappers
  import opened Mvir
  import opened Places
  import opened MoveState
  import opened MoveTransfer
  import opened ForwardDataflow

  // ----- the analysis the engine runs ----------------------------------------------------

  datatype State = State(isUnvisited: bool, places: PlaceMap)

  /** The order in which the `call`-th merge meets the keys of its two tables. */
  type KeyOrder = (PlaceMap, PlaceMap, nat) -> seq<Place>

  ghost predicate OrdersKeys(order: KeyOrder) {
    forall d, s, call: nat :: IsOrder(order(d, s, call), d, s)
  }

  function MergeStates(order: KeyOrder, d: State, s: State, call: nat): State {
    if d.isUnvisited then State(false, s.places)
    else State(false, MergeFold(d.places, s.places, order(d.places, s.places, call)))
  }

  function CountAllocas(func: Function, n: nat): nat
    requires n <= |func.values|
  {
    if n == 0 then 0 else CountAllocas(func, n - 1) + (if func.values[n - 1].Alloca? then 1 else 0)
  }

  /** Allocas hold arguments first, then locals that start out uninitialized. */
  function EntryPlaces(func: Function, n: nat): PlaceMap
    requires n <= |func.values|
  {
    if n == 0 then map[]
    else if func.values[n - 1].Alloca? then
      EntryPlaces(func, n - 1)
        [Place(n - 1, []) := if CountAllocas(func, n - 1) < func.argCount then Live else Uninitialized]
    else EntryPlaces(func, n - 1)
  }

  function MoveAnalysis(env: Env, order: KeyOrder): Analysis<State> {
    Analysis(
      State(true, map[]),
      State(false, EntryPlaces(env.func, |env.func.values|)),
      (id: ValueId, s: State) => s.(places := ApplyAll(env, InstActions(env, id), s.places)),
      (term: Terminator, s: State) => s.(places := ApplyAll(env, TermActions(env, term), s.places)),
      (from: Label, to: Label, s: State) => s,
      (d: State, s: State, call: nat) => MergeStates(order, d, s, call))
  }

  function InstsActions(env: Env, insts: seq<ValueId>): seq<Action> {
    if insts == [] then [] else InstActions(env, insts[0]) + InstsActions(env, insts[1..])
  }

  function BlockActions(env: Env, block: BasicBlock): seq<Action> {
    InstsActions(env, block.insts) + (if block.terminator.Some? then TermActions(env, block.terminator.value) else [])
  }

  lemma {:induction false} TransferInstsIs(env: Env, order: KeyOrder, insts: seq<ValueId>, s: State)
    ensures TransferInsts(MoveAnalysis(env, order), insts, s)
      == s.(places := ApplyAll(env, InstsActions(env, insts), s.places))
  {
    if insts != [] {
      var a := MoveAnalysis(env, order);
      var s1 := a.inst(insts[0], s);
      TransferInstsIs(env, order, insts[1..], s1);
      ApplyAllConcat(env, InstActions(env, insts[0]), InstsActions(env, insts[1..]), s.places);
    }
  }

  lemma FlowIs(env: Env, order: KeyOrder, block: BasicBlock, y: Label, s: State)
    ensures Flow(MoveAnalysis(env, order), block, y, s)
      == s.(places := ApplyAll(env, BlockActions(env, block), s.places))
  {
    TransferInstsIs(env, order, block.insts, s);
    var term := if block.terminator.Some? then TermActions(env, block.terminator.value) else [];
    ApplyAllConcat(env, InstsActions(env, block.insts), term, s.places);
  }

  // ----- a moved place -------------------------------------------------------------------

  /** `p` is moved, dropped or conditionally moved; every kind of use check flags it. */
  predicate Gone(m: PlaceMap, p: Place) {
    var v := Inherited(m, p); v.Moved? || v.Dropped? || v.ConditionallyMoved?
  }

  lemma GoneIsFlagged(m: PlaceMap, p: Place)
    requires Gone(m, p)
    ensures Effective(m, p) != Live && Effective(m, p) != PartialMoved && Effective(m, p) != Uninitialized
    ensures Flags(Check(p), m) && Flags(CheckField(p), m)
  {}

  predicate Kills(act: Action, p: Place) {
    act.MarkMoved? && Ancestor(act.place, p)
  }

  predicate Revives(act: Action, p: Place) {
    (act.MarkLive? || act.Allocate?) && Ancestor(act.place, p)
  }

  lemma InheritedOverwrite(m: PlaceMap, q: Place, v: MoveState, p: Place)
    ensures Inherited(Overwrite(m, q, v), p) == if Ancestor(q, p) then v else Inherited(m, p)
  {
    var r := Overwrite(m, q, v);
    if Ancestor(q, p) {
      forall j | j in r && Ancestor(j, p) ensures Ancestor(j, q) {
        AncestorsAreChain(j, q, p);
      }
      InheritedIs(r, q, p);
    } else {
      forall k | Ancestor(k, p) ensures (k in m <==> k in r) && (k in m ==> m[k] == r[k]) {
        if Ancestor(q, k) { AncestorTrans(q, k, p); }
      }
      InheritedAside(m, r, p);
    }
  }

  lemma {:induction false} InheritedUpdateElsewhere(m: PlaceMap, k: Place, v: MoveState, p: Place)
    requires k in m && Inherited(m, p) != m[k]
    ensures Inherited(m[k := v], p) == Inherited(m, p)
    decreases |p.projections|
  {
    if p !in m && p.projections != [] {
      InheritedUpdateElsewhere(m, k, v, Parent(p));
    }
  }

  /** The tables hold the same entries about `x`. */
  ghost predicate SameAbout(m: PlaceMap, m': PlaceMap, x: ValueId) {
    forall k: Place :: k.local == x ==> (k in m <==> k in m') && (k in m ==> m[k] == m'[k])
  }

  lemma {:induction false} CollapseAside(env: Env, q: Place, m: PlaceMap, x: ValueId)
    requires q.local != x
    ensures SameAbout(m, Collapse(env, q, m), x)
    decreases |q.projections|
  {
    if q.projections != [] { CollapseAside(env, Parent(q), Overwrite(m, Parent(q), Moved), x); }
  }

  lemma ApplyAside(env: Env, act: Action, m: PlaceMap, x: ValueId)
    requires act.place.local != x
    ensures SameAbout(m, Apply(env, act, m), x)
  {
    if act.MarkMoved? { CollapseAside(env, act.place, Overwrite(m, act.place, Moved), x); }
  }

  lemma {:induction false} CollapseKeepsGone(env: Env, q: Place, m: PlaceMap, p: Place)
    requires Gone(m, p)
    ensures Gone(Collapse(env, q, m), p)
    decreases |q.projections|
  {
    if q.projections != [] {
      InheritedOverwrite(m, Parent(q), Moved, p);
      var r := Overwrite(m, Parent(q), Moved);
      CollapseKeepsGone(env, Parent(q), r, p);
    }
  }

  lemma ApplyKeepsGone(env: Env, act: Action, m: PlaceMap, p: Place)
    requires Kills(act, p) || (Gone(m, p) && !Revives(act, p))
    ensures Gone(Apply(env, act, m), p)
  {
    match act
    case MarkMoved(q) =>
      InheritedOverwrite(m, q, Moved, p);
      CollapseKeepsGone(env, q, Overwrite(m, q, Moved), p);
    case MarkDropped(q) =>
      InheritedOverwrite(m, q, Dropped, p);
    case MarkLive(q) =>
      var r := Overwrite(m, q, Live);
      InheritedOverwrite(m, q, Live, p);
      if q.projections != [] && Parent(q) in r && r[Parent(q)] == Uninitialized {
        InheritedUpdateElsewhere(r, Parent(q), Live, p);
      }
    case Allocate(q, v) =>
      InheritedAside(m, m[q := v], p);
    case _ =>
  }

  /** Replays a list of actions for one place: is it gone at the end? */
  predicate GoneAfter(start: bool, acts: seq<Action>, p: Place) {
    if acts == [] then start
    else if Kills(acts[|acts| - 1], p) then true
    else if Revives(acts[|acts| - 1], p) then false
    else GoneAfter(start, acts[..|acts| - 1], p)
  }

  lemma {:induction false} ApplyAllKeepsGone(env: Env, acts: seq<Action>, m: PlaceMap, p: Place, start: bool)
    requires start ==> Gone(m, p)
    requires GoneAfter(start, acts, p)
    ensures Gone(ApplyAll(env, acts, m), p)
    decreases |acts|
  {
    if acts != [] {
      var last := acts[|acts| - 1];
      if !Kills(last, p) {
        ApplyAllKeepsGone(env, acts[..|acts| - 1], m, p, start);
      }
      ApplyKeepsGone(env, last, ApplyAll(env, acts[..|acts| - 1], m), p);
    }
  }

  lemma {:induction false} GoneAfterConcat(start: bool, a: seq<Action>, b: seq<Action>, p: Place)
    ensures GoneAfter(start, a + b, p) == GoneAfter(GoneAfter(start, a, p), b, p)
    decreases |b|
  {
    if b == [] {
      assert a + b == a;
    } else {
      assert (a + b)[..|a + b| - 1] == a + b[..|b| - 1];
      GoneAfterConcat(start, a, b[..|b| - 1], p);
    }
  }

  /** The replay says "gone" exactly when some move of `p` or of an ancestor is followed by no
      store, initialization or re-allocation of `p` or of an ancestor. */
  lemma {:induction false} GoneAfterMeans(acts: seq<Action>, p: Place)
    ensures GoneAfter(false, acts, p) <==>
      exists i :: 0 <= i < |acts| && Kills(acts[i], p) && forall k :: i < k < |acts| ==> !Revives(acts[k], p)
    decreases |acts|
  {
    if acts != [] {
      var init := acts[..|acts| - 1];
      var last := acts[|acts| - 1];
      GoneAfterMeans(init, p);
      if Kills(last, p) {
        assert Kills(acts[|acts| - 1], p);
      } else if !Revives(last, p) && GoneAfter(false, init, p) {
        var i :| 0 <= i < |init| && Kills(init[i], p) && forall k :: i < k < |init| ==> !Revives(init[k], p);
        assert Kills(acts[i], p);
        forall k | i < k < |acts| ensures !Revives(acts[k], p) {
          if k < |init| { assert acts[k] == init[k]; }
        }
      }
      if exists i :: 0 <= i < |acts| && Kills(acts[i], p) && forall k :: i < k < |acts| ==> !Revives(acts[k], p) {
        var i :| 0 <= i < |acts| && Kills(acts[i], p) && forall k :: i < k < |acts| ==> !Revives(acts[k], p);
        if i < |init| {
          assert Kills(init[i], p);
          forall k | i < k < |init| ensures !Revives(init[k], p) {
            assert acts[k] == init[k];
          }
        }
      }
    }
  }

  // ----- along a walk --------------------------------------------------------------------

  /** The actions of all blocks of a walk but its last. */
  ghost function Trace(env: Env, path: seq<Label>): seq<Action>
    requires IsPath(env.func, path)
    decreases |path|
  {
    if |path| == 1 then []
    else
      var init := path[..|path| - 1];
      assert IsPath(env.func, init);
      assert Edge(env.func, path[|path| - 2], path[|path| - 1]);
      Trace(env, init) + BlockActions(env, BlockNamed(env.func, init[|init| - 1]))
  }

  lemma EntryOfPathKnown(func: Function, path: seq<Label>)
    requires WellFormed(func) && IsPath(func, path)
    ensures path[|path| - 1] in Labels(func)
  {
    if |path| > 1 {
      assert Edge(func, path[|path| - 2], path[|path| - 1]);
    }
  }

  /** A fixpoint edge passes "gone" on: the target's table already absorbs what flows in. */
  lemma EdgeKeepsGone(env: Env, order: KeyOrder, block: BasicBlock, y: Label, states: map<Label, State>, p: Place)
    requires OrdersKeys(order)
    requires block.name in states && y in states
    requires EdgeStable(MoveAnalysis(env, order), block, y, states)
    requires Gone(ApplyAll(env, BlockActions(env, block), states[block.name].places), p)
    ensures Gone(states[y].places, p)
  {
    var a := MoveAnalysis(env, order);
    var s := Flow(a, block, y, states[block.name]);
    FlowIs(env, order, block, y, states[block.name]);
    var t: nat :| a.merge(states[y], s, t) == states[y];
    assert MergeStates(order, states[y], s, t) == states[y];
    var o := order(states[y].places, s.places, t);
    MergeIsUpperBound(states[y].places, s.places, o, p);
    assert Effective(s.places, p) == Inherited(s.places, p);
    assert Le(Effective(s.places, p), Effective(states[y].places, p));
  }

  lemma {:induction false} ReachedAlong(
      env: Env, order: KeyOrder, states: map<Label, State>, reached: set<Label>, path: seq<Label>)
    requires ForwardFixpoint(env.func, MoveAnalysis(env, order), states, reached)
    requires IsPath(env.func, path) && path[0] in reached
    ensures path[|path| - 1] in reached
    decreases |path|
  {
    if |path| > 1 {
      var init := path[..|path| - 1];
      assert IsPath(env.func, init);
      ReachedAlong(env, order, states, reached, init);
      var x, y := path[|path| - 2], path[|path| - 1];
      assert Edge(env.func, x, y);
      StableEdge(env.func, MoveAnalysis(env, order), states, reached, BlockNamed(env.func, x), y);
    }
  }

  /** One block and the edge out of it. */
  lemma StepKeepsGone(
      env: Env, order: KeyOrder, states: map<Label, State>, reached: set<Label>, b: BasicBlock, y: Label,
      g: bool, p: Place)
    requires OrdersKeys(order)
    requires ForwardFixpoint(env.func, MoveAnalysis(env, order), states, reached)
    requires b in env.func.blocks && b.name in reached && Edge(env.func, b.name, y)
    requires g ==> Gone(states[b.name].places, p)
    requires GoneAfter(g, BlockActions(env, b), p)
    ensures y in reached && Gone(states[y].places, p)
  {
    StableEdge(env.func, MoveAnalysis(env, order), states, reached, b, y);
    ApplyAllKeepsGone(env, BlockActions(env, b), states[b.name].places, p, g);
    EdgeKeepsGone(env, order, b, y, states, p);
  }

  lemma {:induction false} WalkKeepsGone(
      env: Env, order: KeyOrder, states: map<Label, State>, reached: set<Label>, path: seq<Label>, p: Place)
    requires OrdersKeys(order)
    requires ForwardFixpoint(env.func, MoveAnalysis(env, order), states, reached)
    requires IsPath(env.func, path) && path[0] in reached
    requires GoneAfter(false, Trace(env, path), p)
    ensures path[|path| - 1] in reached
    ensures Gone(states[path[|path| - 1]].places, p)
    decreases |path|
  {
    if |path| > 1 {
      var init := path[..|path| - 1];
      assert IsPath(env.func, init);
      ReachedAlong(env, order, states, reached, init);
      assert Edge(env.func, path[|path| - 2], path[|path| - 1]);
      var b := BlockNamed(env.func, init[|init| - 1]);
      GoneAfterConcat(false, Trace(env, init), BlockActions(env, b), p);
      var g := GoneAfter(false, Trace(env, init), p);
      if g {
        WalkKeepsGone(env, order, states, reached, init, p);
      }
      StepKeepsGone(env, order, states, reached, b, path[|path| - 1], g, p);
    }
  }

  /** The table just before action `k` of instruction `j` of a block whose entry state is `m`. */
  function TableAt(env: Env, block: BasicBlock, m: PlaceMap, j: nat, k: nat): PlaceMap
    requires j < |block.insts| && k <= |InstActions(env, block.insts[j])|
  {
    ApplyAll(env, InstActions(env, block.insts[j])[..k], ApplyAll(env, InstsActions(env, block.insts[..j]), m))
  }

  /** Everything done on a walk up to action `k` of instruction `j` of its last block. */
  ghost function TraceTo(env: Env, path: seq<Label>, block: BasicBlock, j: nat, k: nat): seq<Action>
    requires IsPath(env.func, path)
    requires j < |block.insts| && k <= |InstActions(env, block.insts[j])|
  {
    Trace(env, path) + InstsActions(env, block.insts[..j]) + InstActions(env, block.insts[j])[..k]
  }

  /** For every walk to an instruction on which `p` (or an ancestor) is moved at step `i` and
      neither stored to, initialized nor re-allocated afterwards, the state the fixpoint gives
      `p` there is moved, dropped or conditionally moved, so a check of `p` is flagged. */
  lemma NoUseAfterMoveMissed(
      env: Env, order: KeyOrder, states: map<Label, State>, reached: set<Label>,
      path: seq<Label>, block: BasicBlock, j: nat, k: nat, p: Place, i: nat)
    requires OrdersKeys(order)
    requires ForwardFixpoint(env.func, MoveAnalysis(env, order), states, reached)
    requires IsPath(env.func, path) && path[0] in reached
    requires block in env.func.blocks && block.name == path[|path| - 1]
    requires j < |block.insts| && k <= |InstActions(env, block.insts[j])|
    requires i < |TraceTo(env, path, block, j, k)| && Kills(TraceTo(env, path, block, j, k)[i], p)
    requires forall t :: i < t < |TraceTo(env, path, block, j, k)| ==> !Revives(TraceTo(env, path, block, j, k)[t], p)
    ensures block.name in states
    ensures Gone(TableAt(env, block, states[block.name].places, j, k), p)
    ensures Flags(Check(p), TableAt(env, block, states[block.name].places, j, k))
    ensures Flags(CheckField(p), TableAt(env, block, states[block.name].places, j, k))
  {
    EntryOfPathKnown(env.func, path);
    var pre, mid, fin := Trace(env, path), InstsActions(env, block.insts[..j]), InstActions(env, block.insts[j])[..k];
    GoneAfterMeans(pre + mid + fin, p);
    GoneAfterConcat(false, pre + mid, fin, p);
    GoneAfterConcat(false, pre, mid, p);
    var g := GoneAfter(false, pre, p);
    var m := states[block.name].places;
    if g {
      WalkKeepsGone(env, order, states, reached, path, p);
    }
    var g1 := GoneAfter(g, mid, p);
    if g1 {
      ApplyAllKeepsGone(env, mid, m, p, g);
    }
    ApplyAllKeepsGone(env, fin, ApplyAll(env, mid, m), p, g1);
    GoneIsFlagged(TableAt(env, block, m, j, k), p);
  }
}
