/** Why the move fixpoint ends: the places it ever names are fixed, and entries only ascend. */
module MoveTermination {
  import opened Wrappers
  import opened Mvir
  import opened Places
  import opened MoveState
  import opened MoveTransfer
  import opened ForwardDataflow
  import opened MoveSoundness

  /** Every prefix of the place of some value, and every whole local. */
  ghost function Universe(env: Env): set<Place> {
    (set v, n | v in env.places && 0 <= n <= |env.places[v].projections| ::
       Place(env.places[v].local, env.places[v].projections[..n]))
    + (set v | 0 <= v < |env.func.values| :: Place(v, []))
  }

  lemma ValuePlaceKnown(env: Env, v: ValueId)
    requires v in env.places
    ensures env.places[v] in Universe(env)
  {
    var p := env.places[v];
    assert p == Place(p.local, p.projections[..|p.projections|]);
  }

  lemma ParentKnown(env: Env, p: Place)
    requires p in Universe(env) && p.projections != []
    ensures Parent(p) in Universe(env)
  {
    var v, n :| v in env.places && 0 <= n <= |env.places[v].projections|
      && p == Place(env.places[v].local, env.places[v].projections[..n]);
    assert Parent(p) == Place(env.places[v].local, env.places[v].projections[..n - 1]);
  }

  // ----- actions stay within the universe ------------------------------------------------

  predicate Writes(act: Action) {
    act.MarkMoved? || act.MarkLive? || act.MarkDropped? || act.Allocate?
  }

  /** What is written lies in the universe, and only whole locals are allocated. */
  ghost predicate Within(env: Env, acts: seq<Action>) {
    forall act :: act in acts && Writes(act) ==>
      act.place in Universe(env) && (act.Allocate? ==> act.place.projections == [])
  }

  /** Nothing below a local is on record as uninitialized. */
  ghost predicate UnsetAreLocals(m: PlaceMap) {
    forall k :: k in m && m[k].Uninitialized? ==> k.projections == []
  }

  lemma OperandsWithin(env: Env, op: Operand)
    ensures Within(env, CheckOf(env, op)) && Within(env, MovedOf(env, op))
    ensures Within(env, LiveOf(env, op)) && Within(env, DroppedOf(env, op)) && Within(env, DropOf(env, op))
  {
    if op.Value? && op.id in env.places {
      ValuePlaceKnown(env, op.id);
    }
  }

  lemma {:induction false} ArgsWithin(env: Env, args: seq<Operand>)
    ensures Within(env, ArgsOf(env, args)) && Within(env, ChecksOf(env, args))
    decreases |args|
  {
    if args != [] {
      ArgsWithin(env, args[..|args| - 1]);
      OperandsWithin(env, args[|args| - 1]);
    }
  }

  lemma {:induction false} CapturesWithin(env: Env, cs: seq<Capture>)
    ensures Within(env, CapturesOf(env, cs))
    decreases |cs|
  {
    if cs != [] {
      CapturesWithin(env, cs[..|cs| - 1]);
      OperandsWithin(env, Value(cs[|cs| - 1].source));
    }
  }

  lemma OperandInstWithin(env: Env, id: ValueId, inst: Instruction)
    requires id < |env.func.values| && env.func.values[id] == inst
    requires inst.Assign? || inst.Store? || inst.Await? || inst.HeapFree? || inst.MarkInit? || inst.Drop?
    ensures Within(env, ActionsOf(env, id, inst))
  {
    match inst
    case Assign(op) => OperandsWithin(env, op);
    case Store(ptr, value) => OperandsWithin(env, ptr); OperandsWithin(env, value);
    case Await(future) => OperandsWithin(env, future);
    case HeapFree(value) => OperandsWithin(env, value);
    case MarkInit(value) => OperandsWithin(env, value);
    case Drop(value, _) => OperandsWithin(env, value);
  }

  lemma CallWithin(env: Env, id: ValueId, inst: Instruction)
    requires id < |env.func.values| && env.func.values[id] == inst
    requires inst.CallDirect? || inst.CallIndirect? || inst.CallClosure? || inst.CallIntrinsic?
      || inst.CallVirt? || inst.Variant? || inst.MakeClosure?
    ensures Within(env, ActionsOf(env, id, inst))
  {
    match inst
    case CallDirect(_, args) => ArgsWithin(env, args);
    case CallIndirect(target, args) => OperandsWithin(env, target); ArgsWithin(env, args);
    case CallClosure(closure, args) => OperandsWithin(env, closure); ArgsWithin(env, args);
    case CallIntrinsic(_, args) => ArgsWithin(env, args);
    case CallVirt(obj, _, args) => OperandsWithin(env, obj); ArgsWithin(env, args);
    case Variant(_, args) => ArgsWithin(env, args);
    case MakeClosure(_, _, captures) => CapturesWithin(env, captures);
  }

  lemma InstWithin(env: Env, id: ValueId)
    ensures Within(env, InstActions(env, id))
  {
    hide CapturesOf, ArgsOf;
    if id < |env.func.values| {
      var inst := env.func.values[id];
      if inst.Assign? || inst.Store? || inst.Await? || inst.HeapFree? || inst.MarkInit? || inst.Drop? {
        OperandInstWithin(env, id, inst);
      } else if inst.CallDirect? || inst.CallIndirect? || inst.CallClosure? || inst.CallIntrinsic?
          || inst.CallVirt? || inst.Variant? || inst.MakeClosure? {
        CallWithin(env, id, inst);
      } else {
        assert Place(id, []) in Universe(env);
      }
    }
  }

  lemma {:induction false} InstsWithin(env: Env, insts: seq<ValueId>)
    ensures Within(env, InstsActions(env, insts))
  {
    if insts != [] {
      InstWithin(env, insts[0]);
      InstsWithin(env, insts[1..]);
    }
  }

  lemma BlockWithin(env: Env, block: BasicBlock)
    ensures Within(env, BlockActions(env, block))
  {
    InstsWithin(env, block.insts);
    match block.terminator
    case Some(Ret(Some(value))) => OperandsWithin(env, value);
    case _ =>
  }

  lemma {:induction false} CollapseWithin(env: Env, p: Place, m: PlaceMap)
    requires p in Universe(env)
    ensures m.Keys <= Universe(env) ==> Collapse(env, p, m).Keys <= Universe(env)
    ensures UnsetAreLocals(m) ==> UnsetAreLocals(Collapse(env, p, m))
    decreases |p.projections|
  {
    if p.projections != [] {
      ParentKnown(env, p);
      CollapseWithin(env, Parent(p), Overwrite(m, Parent(p), Moved));
    }
  }

  lemma {:induction false} ApplyAllWithin(env: Env, acts: seq<Action>, m: PlaceMap)
    requires Within(env, acts)
    ensures m.Keys <= Universe(env) ==> ApplyAll(env, acts, m).Keys <= Universe(env)
    ensures UnsetAreLocals(m) ==> UnsetAreLocals(ApplyAll(env, acts, m))
    decreases |acts|
  {
    if acts != [] {
      var init := acts[..|acts| - 1];
      ApplyAllWithin(env, init, m);
      var act := acts[|acts| - 1];
      var m1 := ApplyAll(env, init, m);
      if act.MarkMoved? {
        CollapseWithin(env, act.place, Overwrite(m1, act.place, Moved));
      }
    }
  }

  lemma {:induction false} EntryWithin(env: Env, n: nat)
    requires n <= |env.func.values|
    ensures EntryPlaces(env.func, n).Keys <= Universe(env) && UnsetAreLocals(EntryPlaces(env.func, n))
  {
    if n > 0 {
      EntryWithin(env, n - 1);
      assert Place(n - 1, []) in Universe(env);
    }
  }

  // ----- the rank of a state -------------------------------------------------------------

  function Height(v: MoveState): nat {
    if v.Live? then 1 else if v.ConditionallyMoved? then 3 else 2
  }

  function Weight(m: PlaceMap, p: Place): nat {
    if p in m then Height(m[p]) else 0
  }

  function Sum(m: PlaceMap, ps: seq<Place>): nat {
    if ps == [] then 0 else Weight(m, ps[0]) + Sum(m, ps[1..])
  }

  lemma {:induction false} SumBounded(m: PlaceMap, ps: seq<Place>)
    ensures Sum(m, ps) <= 3 * |ps|
  {
    if ps != [] { SumBounded(m, ps[1..]); }
  }

  lemma {:induction false} SumRises(m: PlaceMap, m': PlaceMap, ps: seq<Place>)
    requires forall p :: p in ps ==> Weight(m, p) <= Weight(m', p)
    ensures Sum(m, ps) <= Sum(m', ps)
    ensures (exists p :: p in ps && Weight(m, p) < Weight(m', p)) ==> Sum(m, ps) < Sum(m', ps)
  {
    if ps != [] {
      SumRises(m, m', ps[1..]);
      assert ps == [ps[0]] + ps[1..];
    }
  }

  ghost function Listing(s: set<Place>): (ps: seq<Place>)
    ensures forall p :: p in s <==> p in ps
    ensures |ps| == |s|
  {
    if s == {} then [] else var p :| p in s; [p] + Listing(s - {p})
  }

  ghost function Rank(env: Env, s: State): nat {
    if s.isUnvisited then 0 else 1 + Sum(s.places, Listing(Universe(env)))
  }

  ghost function MaxRank(env: Env): nat {
    1 + 3 * |Universe(env)|
  }

  lemma RankBounded(env: Env, s: State)
    ensures Rank(env, s) <= MaxRank(env)
  {
    SumBounded(s.places, Listing(Universe(env)));
  }

  lemma LeRaisesHeight(a: MoveState, b: MoveState)
    requires Le(a, b)
    ensures Height(a) <= Height(b)
    ensures a != b ==> Height(a) < Height(b)
  {}

  lemma WeightRises(d: PlaceMap, s: PlaceMap, o: seq<Place>, p: Place)
    requires IsOrder(o, d, s)
    ensures Weight(d, p) <= Weight(MergeFold(d, s, o), p)
    ensures p in MergeFold(d, s, o) && (p !in d || d[p] != MergeFold(d, s, o)[p]) ==>
      Weight(d, p) < Weight(MergeFold(d, s, o), p)
  {
    if p in d {
      MergeAscends(d, s, o, p);
      LeRaisesHeight(d[p], MergeFold(d, s, o)[p]);
    }
  }

  lemma FoldClimbs(d: PlaceMap, s: PlaceMap, o: seq<Place>, ps: seq<Place>)
    requires IsOrder(o, d, s)
    requires forall p :: p in MergeFold(d, s, o) ==> p in ps
    requires MergeFold(d, s, o) != d
    ensures Sum(d, ps) < Sum(MergeFold(d, s, o), ps)
  {
    var m := MergeFold(d, s, o);
    MergeIsUpperBound(d, s, o, Place(0, []));
    var q :| q in m && (q !in d || d[q] != m[q]);
    WeightRises(d, s, o, q);
    forall p | p in ps ensures Weight(d, p) <= Weight(m, p) {
      WeightRises(d, s, o, p);
    }
    SumRises(d, m, ps);
  }

  /** A merge that changes the target's table strictly raises its rank. */
  lemma MergeClimbs(env: Env, order: KeyOrder, d: State, s: State, call: nat)
    requires OrdersKeys(order)
    requires MergeStates(order, d, s, call).places.Keys <= Universe(env)
    requires MergeStates(order, d, s, call) != d
    ensures Rank(env, d) < Rank(env, MergeStates(order, d, s, call))
  {
    if !d.isUnvisited {
      FoldClimbs(d.places, s.places, order(d.places, s.places, call), Listing(Universe(env)));
    }
  }

  // ----- the engine's obligations --------------------------------------------------------

  /** No edge leads back to the first block. */
  ghost predicate NoWayBack(func: Function) {
    |func.blocks| > 0 && forall x :: !Edge(func, x, func.blocks[0].name)
  }

  function EntryTable(func: Function): PlaceMap {
    EntryPlaces(func, |func.values|)
  }

  /** Every place is at least as high as on entry, and every entry is still there. */
  ghost predicate AboveEntry(func: Function, m: PlaceMap) {
    EntryTable(func).Keys <= m.Keys && forall p :: Le(Effective(EntryTable(func), p), Effective(m, p))
  }

  /** What holds of the first block's state: it is above the entry table, and the entry table
      itself when nothing leads back. */
  ghost predicate StartsAtEntry(func: Function, l: Label, s: State) {
    IsEntry(func, l) ==>
      && !s.isUnvisited && AboveEntry(func, s.places)
      && (NoWayBack(func) ==> s.places == EntryTable(func))
  }

  ghost function Stays(env: Env): (Label, State) -> bool {
    (l: Label, s: State) =>
      s.places.Keys <= Universe(env) && UnsetAreLocals(s.places) && StartsAtEntry(env.func, l, s)
  }

  lemma MergeStartsAtEntry(func: Function, order: KeyOrder, block: BasicBlock, y: Label, d: State, s: State, call: nat)
    requires OrdersKeys(order) && block in func.blocks && y in Successors(block) && StartsAtEntry(func, y, d)
    ensures StartsAtEntry(func, y, MergeStates(order, d, s, call))
  {
    if IsEntry(func, y) {
      var o := order(d.places, s.places, call);
      var m := MergeFold(d.places, s.places, o);
      var i :| 0 <= i < |func.blocks| && func.blocks[i] == block;
      assert Edge(func, block.name, func.blocks[0].name);
      forall p ensures Le(Effective(EntryTable(func), p), Effective(m, p)) {
        MergeIsUpperBound(d.places, s.places, o, p);
        assert Le(Effective(EntryTable(func), p), Effective(d.places, p));
      }
      MergeIsUpperBound(d.places, s.places, o, Place(0, []));
    }
  }

  lemma MoveInvariant(env: Env, order: KeyOrder)
    requires OrdersKeys(order)
    ensures Invariant(env.func, MoveAnalysis(env, order), Stays(env))
  {
    hide StartsAtEntry, MergeStates;
    var a := MoveAnalysis(env, order);
    EntryWithin(env, |env.func.values|);
    StartsWell(env.func);
    forall i, y, s, d, t: nat | 0 <= i < |env.func.blocks| && y in Successors(env.func.blocks[i])
        && Stays(env)(env.func.blocks[i].name, s) && Stays(env)(y, d)
      ensures Stays(env)(y, a.merge(d, Flow(a, env.func.blocks[i], y, s), t))
    {
      var block := env.func.blocks[i];
      var f := Flow(a, block, y, s);
      FlowIs(env, order, block, y, s);
      BlockWithin(env, block);
      ApplyAllWithin(env, BlockActions(env, block), s.places);
      MergeWithin(env, order, d, f, t);
      MergeStartsAtEntry(env.func, order, block, y, d, f, t);
    }
  }

  lemma StartsWell(func: Function)
    ensures forall l :: StartsAtEntry(func, l, if IsEntry(func, l) then State(false, EntryTable(func))
      else State(true, map[]))
  {}

  lemma MergeWithin(env: Env, order: KeyOrder, d: State, s: State, call: nat)
    requires d.places.Keys <= Universe(env) && s.places.Keys <= Universe(env) && OrdersKeys(order)
    requires UnsetAreLocals(d.places) && UnsetAreLocals(s.places)
    ensures MergeStates(order, d, s, call).places.Keys <= Universe(env)
    ensures UnsetAreLocals(MergeStates(order, d, s, call).places)
  {
    MergeFoldAbsorbs(d.places, s.places, order(d.places, s.places, call));
    MergeUnset(d.places, s.places, order(d.places, s.places, call));
  }

  lemma {:induction false} MergeUnset(d: PlaceMap, s: PlaceMap, o: seq<Place>)
    requires UnsetAreLocals(d) && UnsetAreLocals(s)
    ensures UnsetAreLocals(MergeFold(d, s, o))
    decreases |o|
  {
    if o != [] { MergeUnset(d, s, o[..|o| - 1]); }
  }

  lemma MoveAscends(env: Env, order: KeyOrder)
    requires OrdersKeys(order)
    ensures Ascends(MoveAnalysis(env, order), Stays(env), s => Rank(env, s), MaxRank(env))
  {
    forall s ensures Rank(env, s) <= MaxRank(env) { RankBounded(env, s); }
    var a := MoveAnalysis(env, order);
    forall l, d, s, t: nat | Stays(env)(l, d) && Stays(env)(l, a.merge(d, s, t)) && a.merge(d, s, t) != d
      ensures Rank(env, d) < Rank(env, a.merge(d, s, t))
    {
      MergeClimbs(env, order, d, s, t);
    }
  }
}
