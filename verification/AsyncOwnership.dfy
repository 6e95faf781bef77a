/** What the cleanup of a suspended async function destroys: the future it awaits, which it may
    drop twice, and parts that have been moved elsewhere. */
module AsyncOwnership {
  import opened Wrappers
  import opened Mvir
  import opened Places
  import opened MoveState
  import opened MoveTransfer
  import opened MoveSoundness
  import opened MoveTermination
  import opened ReturnUses
  import opened DropSoundness
  import opened AsyncDrop
  import D = AsyncDrop
  import opened AsyncDropCorrectness
  import BorrowCheckMoves
  import Suspension

  // ----- the awaited future --------------------------------------------------------------

  /** The event destroys what place `p` holds: it drops a place at or above it. */
  predicate Destroys(e: Event, p: Place) {
    e.DropPlace? && Ancestor(e.place, p)
  }

  /** The event destroys the awaited future, which was read from place `awaited`, if from any. */
  predicate DestroysChild(awaited: Option<Place>, e: Event) {
    e.DropChild? || (awaited.Some? && Destroys(e, awaited.value))
  }

  /** How often the events destroy the awaited future. */
  function TimesDestroyed(awaited: Option<Place>, events: seq<Event>): nat {
    if events == [] then 0
    else (if DestroysChild(awaited, events[0]) then 1 else 0) + TimesDestroyed(awaited, events[1..])
  }

  lemma {:induction false} TimesAdd(awaited: Option<Place>, a: seq<Event>, b: seq<Event>)
    ensures TimesDestroyed(awaited, a + b) == TimesDestroyed(awaited, a) + TimesDestroyed(awaited, b)
  {
    hide DestroysChild;
    if a == [] {
      assert a + b == b;
    } else {
      assert (a + b)[1..] == a[1..] + b;
      TimesAdd(awaited, a[1..], b);
    }
  }

  /** Some place of the list at or above `awaited` is dropped. */
  ghost predicate Covered(env: DropEnv, places: seq<Place>, awaited: Option<Place>) {
    awaited.Some? && exists i :: 0 <= i < |places| && D.Dropped(env, places[i]) && Ancestor(places[i], awaited.value)
  }

  lemma {:induction false} PlacesDestroy(env: DropEnv, places: seq<Place>, awaited: Option<Place>)
    requires Antichain(places)
    ensures TimesDestroyed(awaited, PlacesEvents(env, places)) == if Covered(env, places, awaited) then 1 else 0
    decreases |places|
  {
    hide D.Dropped, DropType, Ancestor;
    if places != [] {
      var rest := places[1..];
      PlacesDestroy(env, rest, awaited);
      TimesAdd(awaited, PlaceEvents(env, places[0]), PlacesEvents(env, rest));
      OnePlace(env, places[0], awaited);
      if Covered(env, rest, awaited) {
        var i :| 0 <= i < |rest| && D.Dropped(env, rest[i]) && Ancestor(rest[i], awaited.value);
        assert places[i + 1] == rest[i];
        if Ancestor(places[0], awaited.value) { AncestorsAreChain(places[0], places[i + 1], awaited.value); }
      }
      if Covered(env, places, awaited) {
        var i :| 0 <= i < |places| && D.Dropped(env, places[i]) && Ancestor(places[i], awaited.value);
        assert i > 0 ==> rest[i - 1] == places[i];
      }
    }
  }

  lemma OnePlace(env: DropEnv, place: Place, awaited: Option<Place>)
    ensures TimesDestroyed(awaited, PlaceEvents(env, place))
      == if awaited.Some? && D.Dropped(env, place) && Ancestor(place, awaited.value) then 1 else 0
  {
    var events := PlaceEvents(env, place);
    assert events != [] ==> events[1..] == [];
  }

  /** While a future is awaited, the run destroys it exactly once if and only if it drops no place
      at or above the one the future was read from.  Otherwise it destroys it twice. */
  lemma ChildDestroyedOnceIff(env: DropEnv, plan: Plan, st: Stored, awaited: Option<Place>)
    requires PlanOk(plan) && 1 <= st.state <= plan.awaits && st.child && Antichain(plan.live[st.state])
    ensures var times := TimesDestroyed(awaited, Expected(env, plan, st));
            && (times == 1 <==> !Covered(env, plan.live[st.state], awaited))
            && (times == 2 <==> Covered(env, plan.live[st.state], awaited))
  {
    hide PlacesEvents, Covered, Antichain;
    var head := [DropChild(plan.children[st.state])];
    var places := plan.live[st.state];
    PlacesDestroy(env, places, awaited);
    TimesAdd(awaited, head, PlacesEvents(env, places));
    TimesAdd(awaited, head + PlacesEvents(env, places), [FreeEnv]);
    assert head[1..] == [] && [FreeEnv][1..] == [];
    assert TimesDestroyed(awaited, head) == 1 && TimesDestroyed(awaited, [FreeEnv]) == 0;
  }

  // ----- what is recorded at an await ----------------------------------------------------

  /** The places dropped in state `k` are those recorded, once each. */
  ghost predicate Follows(plan: Plan, k: nat, sus: Suspension.SuspensionState) {
    && k < |plan.live|
    && (forall i, j :: 0 <= i < j < |plan.live[k]| ==> plan.live[k][i] != plan.live[k][j])
    && forall p :: p in plan.live[k] <==> p in sus.live
  }

  /** The awaited future is read from `q`, on record and usable where the function suspends.  Some
      recorded place then holds it, and it is destroyed once if and only if no such place is
      dropped. */
  lemma UsableAwaitedOnceIff(
      env: DropEnv, plan: Plan, st: Stored, sus: Suspension.SuspensionState, m: PlaceMap, q: Place)
    requires PlanOk(plan) && 1 <= st.state <= plan.awaits && st.child && Follows(plan, st.state, sus)
    requires Suspension.Describes(sus, m) && Effective(m, q) == Live && exists j :: j in m && Ancestor(j, q)
    ensures Suspension.Covers(sus, q)
    ensures TimesDestroyed(Some(q), Expected(env, plan, st)) == 1 <==>
      forall p :: p in sus.live && Ancestor(p, q) ==> !D.Dropped(env, p)
    ensures TimesDestroyed(Some(q), Expected(env, plan, st)) == 2 <==>
      exists p :: p in sus.live && Ancestor(p, q) && D.Dropped(env, p)
  {
    hide Suspension.Describes, D.Dropped, Expected, TimesDestroyed, Antichain;
    var places := plan.live[st.state];
    Suspension.UsableIsCovered(sus, m, q);
    SuspendedPlacesApart(sus, m, places);
    ChildDestroyedOnceIff(env, plan, st, Some(q));
    if p :| p in sus.live && Ancestor(p, q) && D.Dropped(env, p) {
      var i :| 0 <= i < |places| && places[i] == p;
    }
  }

  /** `let f = foo(); f.await` */
  function AwaitLocal(): Function {
    Function(0, [BasicBlock("entry", [0, 1, 2, 3, 4], Some(Ret(None)))],
      [Alloca, CallDirect("foo", []), Store(Value(0), Value(1)), Load(Value(0)), Await(Value(3))])
  }

  ghost predicate IsAwaitLocal(env: Env) {
    env.func == AwaitLocal() && env.places == PlacesOf(env.func) && env.copyable == {}
  }

  lemma AwaitLocalPlaces(func: Function)
    requires func == AwaitLocal()
    ensures PlaceOfValue(func, 0) == PlaceOfValue(func, 3) == Some(Place(0, [])) && PlaceOfValue(func, 1) == None
  {
    assert func.blocks[0].insts == [0, 1, 2, 3, 4];
    assert 0 in func.blocks[0].insts && 3 in func.blocks[0].insts;
    assert PlaceOfValue(func, 0) == Some(Place(0, []));
  }

  lemma AwaitLocalActions(env: Env)
    requires IsAwaitLocal(env)
    ensures 3 in env.places && env.places[3] == Place(0, [])
    ensures InstActions(env, 2) == [MarkLive(Place(0, []))] && InstActions(env, 3) == [Check(Place(0, []))]
  {
    hide PlaceOfValue;
    AwaitLocalPlaces(env.func);
    assert 0 in env.places && 3 in env.places && 1 !in env.places;
    assert PlaceOf(env, Value(0)) == Some(Place(0, []));
  }

  /** A local that is live is recorded: nothing lies above it. */
  lemma LiveLocalRecorded(sus: Suspension.SuspensionState, m: PlaceMap, x: Place)
    requires Suspension.Describes(sus, m) && x.projections == [] && x in m && m[x].Live?
    ensures x in sus.live
  {
    forall q | Suspension.KeptRaw(m, q) && q != x ensures !Ancestor(q, x) {
      assert Ancestor(q, x) ==> q.projections == [];
    }
  }

  lemma StoredAndLoaded(env: Env, x: Place, m: PlaceMap)
    ensures var r := ApplyAll(env, [Check(x)], ApplyAll(env, [MarkLive(x)], m));
            x.projections == [] ==> x in r && r[x].Live? && Effective(r, x).Live?
  {
    OneAction(env, 0, MarkLive(x), m);
    OneAction(env, 0, Check(x), ApplyAll(env, [MarkLive(x)], m));
  }

  /** The future of `let f = foo(); f.await` is recorded as live in `f` where its await suspends. */
  lemma AwaitLocalRecorded(
      env: Env, order: KeyOrder, initial: Suspension.SuspensionState, awaits: map<ValueId, Suspension.SuspensionState>)
    returns (m: PlaceMap)
    requires IsAwaitLocal(env) && Suspension.StatesDescribed(env, order, initial, awaits)
    ensures 4 in awaits && Suspension.Describes(awaits[4], m)
    ensures Place(0, []) in awaits[4].live
  {
    hide Suspension.StatesDescribed, Suspension.Describes, Suspension.Kept, ApplyAll, InstActions, InstsActions,
      EntryPlaces, PlacesOf, StartsAtEntry;
    var block := env.func.blocks[0];
    assert block.insts == [0, 1, 2, 3, 4] && Suspension.IsAwait(env.func, block.insts[4]);
    var states := Suspension.AwaitIsDescribed(env, order, initial, awaits, 0, 4);
    AwaitLocalActions(env);
    var s := states[block.name].places;
    m := Suspension.TableBefore(env, block, s, 4);
    BorrowCheckMoves.InstsActionsSnoc(env, block.insts, 2);
    BorrowCheckMoves.InstsActionsSnoc(env, block.insts, 3);
    ApplyAllConcat(env, InstsActions(env, block.insts[..2]), InstActions(env, 2), s);
    ApplyAllConcat(env, InstsActions(env, block.insts[..3]), InstActions(env, 3), s);
    StoredAndLoaded(env, Place(0, []), ApplyAll(env, InstsActions(env, block.insts[..2]), s));
    LiveLocalRecorded(awaits[4], m, Place(0, []));
  }

  /** That future is dropped twice when the task is dropped while it waits: as the child, and as
      what local `f` holds. */
  lemma AwaitLocalDestroyedTwice(
      env: Env, order: KeyOrder, initial: Suspension.SuspensionState, awaits: map<ValueId, Suspension.SuspensionState>,
      denv: DropEnv, plan: Plan)
    requires IsAwaitLocal(env) && Suspension.StatesDescribed(env, order, initial, awaits)
    requires PlanOk(plan) && plan.awaits == 1 && 4 in awaits && Follows(plan, 1, awaits[4])
    requires D.Dropped(denv, Place(0, []))
    ensures 3 in env.places && TimesDestroyed(Some(env.places[3]), Expected(denv, plan, Stored(1, true))) == 2
  {
    hide Suspension.StatesDescribed, Suspension.Describes, PlacesOf, D.Dropped, Expected, TimesDestroyed, Antichain;
    AwaitLocalActions(env);
    var m := AwaitLocalRecorded(env, order, initial, awaits);
    SuspendedPlacesApart(awaits[4], m, plan.live[1]);
    ChildDestroyedOnceIff(denv, plan, Stored(1, true), Some(Place(0, [])));
    var i :| 0 <= i < |plan.live[1]| && plan.live[1][i] == Place(0, []);
    assert Ancestor(plan.live[1][i], Place(0, []));
  }

  // ----- parts that have been moved ------------------------------------------------------

  ghost predicate AnyDestroys(events: seq<Event>, p: Place) {
    exists i :: 0 <= i < |events| && Destroys(events[i], p)
  }

  /** The cleanup of state `k` destroys what lies in `p` exactly when it drops a recorded place at
      or above `p`, whether or not `p` itself still holds anything. */
  lemma PartDestroyedIff(env: DropEnv, plan: Plan, child: bool, k: nat, p: Place)
    requires PlanOk(plan) && k <= plan.awaits
    ensures AnyDestroys(CleanupEvents(env, plan, child, k), p) <==> Covered(env, plan.live[k], Some(p))
  {
    hide D.Dropped, PlacesEvents, AnyDestroys, Covered;
    var head := if k > 0 && child then [DropChild(plan.children[k])] else [];
    assert CleanupEvents(env, plan, child, k) == head + PlacesEvents(env, plan.live[k]);
    assert forall i :: 0 <= i < |head| ==> head[i].DropChild?;
    DestroyedAmong(head, PlacesEvents(env, plan.live[k]), p);
    PlacesCover(env, plan.live[k], p);
  }

  lemma DestroyedAmong(head: seq<Event>, events: seq<Event>, p: Place)
    requires forall i :: 0 <= i < |head| ==> head[i].DropChild?
    ensures AnyDestroys(head + events, p) <==> AnyDestroys(events, p)
  {
    assert forall i :: 0 <= i < |head| ==> !Destroys(head[i], p);
    hide Ancestor, Destroys;
    if i :| 0 <= i < |head + events| && Destroys((head + events)[i], p) {
      assert Destroys(events[i - |head|], p);
    }
    if i :| 0 <= i < |events| && Destroys(events[i], p) {
      assert Destroys((head + events)[|head| + i], p);
    }
  }

  lemma PlacesCover(env: DropEnv, places: seq<Place>, p: Place)
    ensures AnyDestroys(PlacesEvents(env, places), p) <==> Covered(env, places, Some(p))
  {
    hide DropType, PlacesEvents, Ancestor, Walkable;
    var events := PlacesEvents(env, places);
    if i :| 0 <= i < |events| && Destroys(events[i], p) {
      var n := EventsArePlaces(env, places, i);
    }
    if n :| 0 <= n < |places| && D.Dropped(env, places[n]) && Ancestor(places[n], p) {
      PlaceHasEvent(env, places, n);
      var e := DropPlace(places[n], env.callee(DropType(env, places[n]).value, places[n]));
      var i :| 0 <= i < |events| && events[i] == e;
      assert Destroys(events[i], p);
    }
  }

  /** `take(s.part); foo().await`, with an argument `s` of two parts that own something. */
  function AwaitAfterTaking(): Function {
    Function(1, [BasicBlock("entry", [0, 1, 2, 3, 4, 5], Some(Ret(None)))],
      [Alloca, FieldPtr(Value(0), 0), Load(Value(1)), CallDirect("take", [Value(2)]), CallDirect("foo", []),
        Await(Value(4))])
  }

  ghost predicate IsAwaitAfterTaking(env: Env) {
    env.func == AwaitAfterTaking() && env.places == PlacesOf(env.func) && env.copyable == {}
    && env.droppable == map[Place(0, []) := [0, 1]]
  }

  lemma TakingPlaces(func: Function)
    requires func == AwaitAfterTaking()
    ensures PlaceOfValue(func, 0) == Some(Place(0, []))
    ensures PlaceOfValue(func, 1) == PlaceOfValue(func, 2) == Some(Projected(Place(0, []), Field(0)))
  {
    assert func.blocks[0].insts == [0, 1, 2, 3, 4, 5];
    assert 0 in func.blocks[0].insts && 1 in func.blocks[0].insts && 2 in func.blocks[0].insts;
    assert PlaceOfValue(func, 0) == Some(Place(0, []));
    assert PlaceOfValue(func, 1) == Some(Projected(Place(0, []), Field(0)));
  }

  lemma TakingActions(env: Env)
    requires IsAwaitAfterTaking(env)
    ensures var f := Projected(Place(0, []), Field(0));
            && InstActions(env, 1) == [] && InstActions(env, 2) == [Check(f)]
            && InstActions(env, 3) == ArgsOf(env, [Value(2)]) && InstActions(env, 4) == []
            && 2 in env.places && env.places[2] == f
  {
    hide PlaceOfValue, ArgsOf;
    TakingPlaces(env.func);
    assert 0 in env.places && 1 in env.places && 2 in env.places;
    assert PlaceOf(env, Value(1)) == Some(Projected(Place(0, []), Field(0)));
    assert ArgsOf(env, []) == [] by { NoArgs(env); }
  }

  /** Moving one of two parts leaves the whole live. */
  lemma OnePartMoved(env: Env, x: Place)
    requires x.projections == [] && env.droppable == map[x := [0, 1]]
    ensures var f := Projected(x, Field(0)); var m: PlaceMap := map[x := Live];
            Apply(env, Check(f), m) == m && Apply(env, MarkMoved(f), m) == m[f := Moved]
  {
    hide Collapse, FieldGone, Inherited, Overwrite, Ancestor;
    var f := Projected(x, Field(0));
    var m: PlaceMap := map[x := Live];
    PartApart(x);
    PartOverwritten(x, f);
    OtherPart(x, f);
    OnePartLeft(env, f, x, m[f := Moved]);
  }

  lemma PartApart(x: Place)
    requires x.projections == []
    ensures var f, g := Projected(x, Field(0)), Projected(x, Field(1));
            && f.projections != [] && g.projections != [] && Parent(f) == x && Parent(g) == x
            && f != g && f != x && g != x && !Ancestor(f, x)
  {
    var f, g := Projected(x, Field(0)), Projected(x, Field(1));
    assert g.projections[0] == Field(1) && f.projections[0] == Field(0);
  }

  lemma PartOverwritten(x: Place, f: Place)
    requires !Ancestor(f, x) && f != x
    ensures Overwrite(map[x := Live], f, Moved) == map[x := Live, f := Moved]
  {
    hide Ancestor;
  }

  lemma OtherPart(x: Place, f: Place)
    requires var g := Projected(x, Field(1)); g.projections != [] && Parent(g) == x && f != g && g != x && f != x
    ensures Inherited(map[x := Live, f := Moved], Projected(x, Field(1))) == Live
  {
    var m: PlaceMap := map[x := Live, f := Moved];
    assert Inherited(m, x) == Live;
  }

  lemma OnePartLeft(env: Env, f: Place, x: Place, m: PlaceMap)
    requires f.projections != [] && Parent(f) == x && env.droppable == map[x := [0, 1]]
    requires Inherited(m, Projected(x, Field(1))) == Live
    ensures Collapse(env, f, m) == m
  {
    hide Inherited, HasBad;
    assert !FieldGone(m, x, [0, 1][1]);
  }

  /** Where the function suspends the part is gone, and `s` is recorded as live as a whole. */
  lemma TakenPartRecorded(
      env: Env, order: KeyOrder, initial: Suspension.SuspensionState, awaits: map<ValueId, Suspension.SuspensionState>)
    returns (m: PlaceMap)
    requires IsAwaitAfterTaking(env) && Suspension.StatesDescribed(env, order, initial, awaits)
    ensures 5 in awaits && Suspension.Describes(awaits[5], m)
    ensures Gone(m, Projected(Place(0, []), Field(0))) && Place(0, []) in awaits[5].live
  {
    hide Suspension.StatesDescribed, Suspension.Describes, ApplyAll, Apply, InstActions, InstsActions, EntryPlaces,
      PlacesOf,
      StartsAtEntry, Straight;
    var x := Place(0, []);
    var f := Projected(x, Field(0));
    var block := env.func.blocks[0];
    var start: PlaceMap := map[x := Live];
    assert block.insts == [0, 1, 2, 3, 4, 5] && 0 in block.insts && Suspension.IsAwait(env.func, block.insts[5]);
    var states := Suspension.AwaitIsDescribed(env, order, initial, awaits, 0, 5);
    OneBlockStarts(env, states);
    ArgumentPlace(env);
    AllocateKeeps(env);
    TakingActions(env);
    OnePartMoved(env, x);
    NoActions(env, 1, start);
    OneAction(env, 2, Check(f), start);
    OneArg(env, 2);
    TwoActions(env, 3, Check(f), MarkMoved(f), start);
    NoActions(env, 4, start[f := Moved]);
    StraightStep(env, 1);
    StraightStep(env, 2);
    StraightStep(env, 3);
    StraightStep(env, 4);
    StraightIs(env, 5);
    m := Suspension.TableBefore(env, block, states[block.name].places, 5);
    assert m == start[f := Moved];
    LiveLocalRecorded(awaits[5], m, x);
  }

  /** When the task is dropped while it waits, the part that was taken is dropped with `s`. */
  lemma TakenPartDestroyed(
      env: Env, order: KeyOrder, initial: Suspension.SuspensionState, awaits: map<ValueId, Suspension.SuspensionState>,
      denv: DropEnv, plan: Plan, child: bool)
    requires IsAwaitAfterTaking(env) && Suspension.StatesDescribed(env, order, initial, awaits)
    requires PlanOk(plan) && plan.awaits == 1 && 5 in awaits && Follows(plan, 1, awaits[5])
    requires D.Dropped(denv, Place(0, []))
    ensures AnyDestroys(CleanupEvents(denv, plan, child, 1), Projected(Place(0, []), Field(0)))
  {
    hide Suspension.StatesDescribed, Suspension.Describes, PlacesOf, D.Dropped;
    var m := TakenPartRecorded(env, order, initial, awaits);
    var i :| 0 <= i < |plan.live[1]| && plan.live[1][i] == Place(0, []);
    assert Ancestor(plan.live[1][i], Projected(Place(0, []), Field(0)));
    PartDestroyedIff(denv, plan, child, 1, Projected(Place(0, []), Field(0)));
  }
}
