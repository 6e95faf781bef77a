/** The transfer of an instruction, in terms of the roles of its operands. */
module MoveMeaning {
  import opened Wrappers
  import opened Mvir
  import opened Shapes
  import opened Places
  import opened MoveState
  import opened MoveTransfer
  import opened MoveSoundness
  import opened MoveReports
  import opened MoveRoles

  // ----- what an instruction means for the table -----------------------------------------

  /** The instruction itself stores to or initializes the place or what it lies within. */
  ghost predicate Refilled(env: Env, inst: Instruction, p: Place) {
    exists q :: IsFilled(env, inst, q) && Ancestor(q, p)
  }

  /** A move of `q` does not reach `p`: `p` does not lie at or below `q`, nor within something around
      `q` that can fall to pieces. */
  ghost predicate SparedByMove(env: Env, q: Place, p: Place) {
    !Ancestor(q, p) && forall a :: Ancestor(a, q) && a != q && Ancestor(a, p) ==> !CanCollapse(env, a)
  }

  /** A store to `q` reaches neither `p` nor, through the parent of `q`, what `p` lies within. */
  predicate SparedByStore(q: Place, p: Place) {
    !Ancestor(q, p) && (q.projections != [] ==> !Ancestor(Parent(q), p))
  }

  /** Nothing the instruction does reaches `p`. */
  ghost predicate Spared(env: Env, id: ValueId, inst: Instruction, p: Place) {
    && (forall q :: IsGiven(env, inst, q) ==> SparedByMove(env, q, p))
    && (forall q :: IsFilled(env, inst, q) ==> SparedByStore(q, p))
    && (forall q :: IsDropped(env, inst, q) ==> !Ancestor(q, p))
    && (IsSlot(inst) ==> p.local != id)
  }

  predicate NothingToDrop(m: PlaceMap, p: Place) {
    Effective(m, p) == Moved || Effective(m, p) == Uninitialized
  }

  /** From table `m` to table `m'`: what is handed over is gone, unless the instruction fills it
      again; what is filled is live; what is dropped is dropped, if there was anything to drop; a slot
      is live for an argument and uninitialized otherwise; and all else is as it was. */
  ghost predicate Meant(env: Env, id: ValueId, m: PlaceMap, m': PlaceMap)
    requires id < |env.func.values|
  {
    var inst := env.func.values[id];
    && (forall p :: IsGiven(env, inst, p) && !Refilled(env, inst, p) ==> Gone(m', p))
    && (forall p :: IsFilled(env, inst, p) ==> Inherited(m', p) == Live)
    && (forall p, q :: IsDropped(env, inst, q) ==>
          Inherited(m', p) == if Ancestor(q, p) && !NothingToDrop(m, q) then Dropped else Inherited(m, p))
    && (IsSlot(inst) ==> m' == m[Place(id, []) := if id < env.func.argCount then Live else Uninitialized])
    && (forall p :: Spared(env, id, inst, p) ==> Inherited(m', p) == Inherited(m, p))
  }

  lemma Form(act: Action)
    ensures act.MarkMoved? ==> act == MarkMoved(act.place)
    ensures act.MarkLive? ==> act == MarkLive(act.place)
    ensures act.MarkDropped? ==> act == MarkDropped(act.place)
    ensures act.Allocate? ==> act == Allocate(act.place, act.state)
    ensures act.Check? ==> act == Check(act.place)
    ensures act.CheckField? ==> act == CheckField(act.place)
    ensures act.CheckDrop? ==> act == CheckDrop(act.place)
  {}

  lemma GivenGone(env: Env, id: ValueId, inst: Instruction, acts: seq<Action>, m: PlaceMap, p: Place)
    requires ActsAs(env, id, inst, acts) && IsGiven(env, inst, p) && !Refilled(env, inst, p)
    ensures Gone(ApplyAll(env, acts, m), p)
  {
    hide IsGiven, IsRead, IsFilled, IsDropped, Gone, ApplyAll, GoneAfter;
    GiverIsNoSlot(env, inst, p);
    var i :| 0 <= i < |acts| && acts[i] == MarkMoved(p);
    SelfAncestor(p);
    forall k | i < k < |acts| ensures !Revives(acts[k], p) {
      assert acts[k] in acts;
      Form(acts[k]);
    }
    GoneAfterMeans(acts, p);
    ApplyAllKeepsGone(env, acts, m, p, false);
  }

  lemma GiverIsNoSlot(env: Env, inst: Instruction, p: Place)
    requires IsGiven(env, inst, p)
    ensures !IsSlot(inst) && !inst.Drop? && !inst.HeapFree? && !inst.MarkInit?
  {}

  lemma SelfAncestor(p: Place)
    ensures Ancestor(p, p)
  {}

  lemma LastOne(env: Env, id: ValueId, inst: Instruction, acts: seq<Action>, act: Action)
    requires ActsAs(env, id, inst, acts) && act in acts && (act.MarkLive? || act.MarkDropped? || act.Allocate?)
    ensures acts != [] && acts[|acts| - 1] == act
  {
    hide IsGiven, IsRead, IsFilled, IsDropped;
    var k :| 0 <= k < |acts| && acts[k] == act;
  }

  lemma FilledLive(env: Env, id: ValueId, inst: Instruction, acts: seq<Action>, m: PlaceMap, p: Place)
    requires ActsAs(env, id, inst, acts) && IsFilled(env, inst, p)
    ensures Inherited(ApplyAll(env, acts, m), p) == Live
  {
    hide IsGiven, IsRead, IsFilled, IsDropped;
    LastOne(env, id, inst, acts, MarkLive(p));
    StoredLive(env, p, ApplyAll(env, acts[..|acts| - 1], m));
  }

  lemma StoredLive(env: Env, p: Place, m: PlaceMap)
    ensures Inherited(Apply(env, MarkLive(p), m), p) == Live
  {
    assert p in Overwrite(m, p, Live);
  }

  predicate ChangesNothing(act: Action) {
    act.Check? || act.CheckField? || act.CheckDrop?
  }

  lemma {:induction false} ReadsKeepTable(env: Env, acts: seq<Action>, m: PlaceMap)
    requires forall k :: 0 <= k < |acts| ==> ChangesNothing(acts[k])
    ensures ApplyAll(env, acts, m) == m
    decreases |acts|
  {
    if acts != [] { ReadsKeepTable(env, acts[..|acts| - 1], m); }
  }

  /** Where nothing is handed over, only the last action can change the table. */
  lemma OnlyLast(env: Env, id: ValueId, inst: Instruction, acts: seq<Action>, m: PlaceMap)
    requires ActsAs(env, id, inst, acts) && acts != [] && forall p :: !IsGiven(env, inst, p)
    ensures ApplyAll(env, acts, m) == Apply(env, acts[|acts| - 1], m)
  {
    hide IsGiven, IsRead, IsFilled, IsDropped, Apply;
    var init := acts[..|acts| - 1];
    forall k | 0 <= k < |init| ensures ChangesNothing(init[k]) {
      assert init[k] == acts[k] && acts[k] in acts;
      Form(acts[k]);
    }
    ReadsKeepTable(env, init, m);
  }

  lemma DroppedIs(env: Env, id: ValueId, inst: Instruction, acts: seq<Action>, m: PlaceMap, q: Place, p: Place)
    requires ActsAs(env, id, inst, acts) && IsDropped(env, inst, q)
    ensures Inherited(ApplyAll(env, acts, m), p)
      == if Ancestor(q, p) && !NothingToDrop(m, q) then Dropped else Inherited(m, p)
  {
    hide IsRead, IsFilled;
    LastOne(env, id, inst, acts, MarkDropped(q));
    OnlyLast(env, id, inst, acts, m);
    InheritedOverwrite(m, q, Dropped, p);
  }

  lemma SlotIs(env: Env, id: ValueId, inst: Instruction, acts: seq<Action>, m: PlaceMap)
    requires ActsAs(env, id, inst, acts) && IsSlot(inst)
    ensures ApplyAll(env, acts, m) == m[Place(id, []) := if id < env.func.argCount then Live else Uninitialized]
  {
    hide IsRead, IsFilled, IsDropped;
    LastOne(env, id, inst, acts, Allocate(Place(id, []), if id < env.func.argCount then Live else Uninitialized));
    OnlyLast(env, id, inst, acts, m);
  }

  // ----- what is spared ------------------------------------------------------------------

  ghost predicate ActSpares(env: Env, act: Action, p: Place) {
    match act
    case MarkMoved(q) => SparedByMove(env, q, p)
    case MarkLive(q) => SparedByStore(q, p)
    case MarkDropped(q) => !Ancestor(q, p)
    case Allocate(q, _) => q.local != p.local
    case _ => true
  }

  lemma {:induction false} CollapseSpares(env: Env, q: Place, m: PlaceMap, p: Place)
    requires SparedByMove(env, q, p)
    ensures Inherited(Collapse(env, q, m), p) == Inherited(m, p)
    decreases |q.projections|
  {
    hide Inherited, Overwrite, AllFieldsGone;
    if q.projections != [] {
      var a := Parent(q);
      AncestorParent(a, q);
      if CanCollapse(env, a) {
        assert !Ancestor(a, p);
        InheritedOverwrite(m, a, Moved, p);
        forall b | Ancestor(b, a) && b != a && Ancestor(b, p) ensures !CanCollapse(env, b) {
          AncestorTrans(b, a, q);
        }
        CollapseSpares(env, a, Overwrite(m, a, Moved), p);
      }
    }
  }

  lemma ApplySpares(env: Env, act: Action, m: PlaceMap, p: Place)
    requires ActSpares(env, act, p)
    ensures Inherited(Apply(env, act, m), p) == Inherited(m, p)
  {
    hide Inherited, Overwrite, Effective;
    match act
    case MarkMoved(q) =>
      InheritedOverwrite(m, q, Moved, p);
      CollapseSpares(env, q, Overwrite(m, q, Moved), p);
    case MarkLive(q) =>
      InheritedOverwrite(m, q, Live, p);
      if q.projections != [] {
        var r := Overwrite(m, q, Live);
        InheritedAside(r, r[Parent(q) := Live], p);
      }
    case MarkDropped(q) => InheritedOverwrite(m, q, Dropped, p);
    case Allocate(q, v) => InheritedAside(m, m[q := v], p);
    case _ =>
  }

  lemma {:induction false} ApplyAllSpares(env: Env, acts: seq<Action>, m: PlaceMap, p: Place)
    requires forall k :: 0 <= k < |acts| ==> ActSpares(env, acts[k], p)
    ensures Inherited(ApplyAll(env, acts, m), p) == Inherited(m, p)
    decreases |acts|
  {
    hide Inherited, Apply, ActSpares;
    if acts != [] {
      var init := acts[..|acts| - 1];
      ApplyAllSpares(env, init, m, p);
      ApplySpares(env, acts[|acts| - 1], ApplyAll(env, init, m), p);
    }
  }

  lemma SparedIs(env: Env, id: ValueId, inst: Instruction, acts: seq<Action>, m: PlaceMap, p: Place)
    requires ActsAs(env, id, inst, acts) && Spared(env, id, inst, p)
    ensures Inherited(ApplyAll(env, acts, m), p) == Inherited(m, p)
  {
    hide IsGiven, IsRead, IsFilled, IsDropped, Inherited, ApplyAll, SparedByMove, SparedByStore;
    forall k | 0 <= k < |acts| ensures ActSpares(env, acts[k], p) {
      assert acts[k] in acts;
      Form(acts[k]);
    }
    ApplyAllSpares(env, acts, m, p);
  }

  /** The transfer does to the table what the roles of the operands say, and nothing else. */
  lemma TableMeant(env: Env, id: ValueId, m: PlaceMap)
    requires id < |env.func.values|
    ensures Meant(env, id, m, ApplyAll(env, InstActions(env, id), m))
  {
    hide InstActions, ActsAs, IsGiven, IsFilled, IsDropped, Refilled, Spared, Inherited, ApplyAll, Gone;
    var inst, acts := env.func.values[id], InstActions(env, id);
    ActionsFollowRoles(env, id);
    forall p | IsGiven(env, inst, p) && !Refilled(env, inst, p) ensures Gone(ApplyAll(env, acts, m), p) {
      GivenGone(env, id, inst, acts, m, p);
    }
    forall p | IsFilled(env, inst, p) ensures Inherited(ApplyAll(env, acts, m), p) == Live {
      FilledLive(env, id, inst, acts, m, p);
    }
    forall p, q | IsDropped(env, inst, q)
      ensures Inherited(ApplyAll(env, acts, m), p)
        == if Ancestor(q, p) && !NothingToDrop(m, q) then Dropped else Inherited(m, p)
    {
      DroppedIs(env, id, inst, acts, m, q, p);
    }
    if IsSlot(inst) { SlotIs(env, id, inst, acts, m); }
    forall p | Spared(env, id, inst, p) ensures Inherited(ApplyAll(env, acts, m), p) == Inherited(m, p) {
      SparedIs(env, id, inst, acts, m, p);
    }
  }

  // ----- what an instruction means for the report ----------------------------------------

  /** The states in which a field cannot be taken out. */
  predicate Untakeable(v: MoveState) {
    v.Moved? || v.Dropped? || v.ConditionallyMoved? || v.Uninitialized?
  }

  /** From table `m` the instruction raises `flags`: every place it reads that is not live there, the
      field it takes out if that has no value, and a conditional drop; and otherwise only places it
      reads of a local whose value, or part of it, it hands over itself. */
  ghost predicate FlagsMeant(env: Env, id: ValueId, m: PlaceMap, flags: set<Flag>)
    requires id < |env.func.values|
  {
    var inst := env.func.values[id];
    && (forall p :: IsRead(env, inst, p) && Effective(m, p) != Live ==> Flag(id, p) in flags)
    && (forall p :: IsTaken(env, inst, p) && Untakeable(Effective(m, p)) ==> Flag(id, p) in flags)
    && (forall p :: inst.Drop? && IsDropped(env, inst, p) && Effective(m, p) == ConditionallyMoved ==>
          Flag(id, p) in flags)
    && (forall f :: f in flags ==> f.at == id && Raises(env, inst, m, f.place))
  }

  ghost predicate Raises(env: Env, inst: Instruction, m: PlaceMap, p: Place) {
    || (IsRead(env, inst, p) && (Effective(m, p) != Live || GivesSome(env, inst, p.local)))
    || (IsTaken(env, inst, p) && Untakeable(Effective(m, p)))
    || (inst.Drop? && IsDropped(env, inst, p) && Effective(m, p) == ConditionallyMoved)
  }

  ghost predicate GivesSome(env: Env, inst: Instruction, x: ValueId) {
    exists q :: IsGiven(env, inst, q) && q.local == x
  }

  lemma OverwriteKeepsNotLive(m: PlaceMap, q: Place, p: Place)
    requires Effective(m, p) != Live
    ensures Effective(Overwrite(m, q, Moved), p) != Live
  {
    InheritedOverwrite(m, q, Moved, p);
    if !Ancestor(q, p) && Inherited(m, p) == Live {
      var b :| b in m && Ancestor(p, b) && Bad(m[b]);
      var r := Overwrite(m, q, Moved);
      if Ancestor(q, b) {
        AncestorsAreChain(p, q, b);
        assert q in r && Ancestor(p, q) && Bad(r[q]);
      } else {
        assert b in r && Bad(r[b]);
      }
      assert HasBad(r, p);
    }
  }

  lemma {:induction false} CollapseKeepsNotLive(env: Env, q: Place, m: PlaceMap, p: Place)
    requires Effective(m, p) != Live
    ensures Effective(Collapse(env, q, m), p) != Live
    decreases |q.projections|
  {
    hide Effective, AllFieldsGone, Overwrite;
    if q.projections != [] {
      OverwriteKeepsNotLive(m, Parent(q), p);
      CollapseKeepsNotLive(env, Parent(q), Overwrite(m, Parent(q), Moved), p);
    }
  }

  /** Reading and moving other operands first does not make a place live. */
  lemma {:induction false} MovesKeepNotLive(env: Env, acts: seq<Action>, m: PlaceMap, p: Place)
    requires forall k :: 0 <= k < |acts| ==> acts[k].MarkMoved? || ChangesNothing(acts[k])
    requires Effective(m, p) != Live
    ensures Effective(ApplyAll(env, acts, m), p) != Live
    decreases |acts|
  {
    hide Effective, Collapse, Overwrite;
    if acts != [] {
      var init, last := acts[..|acts| - 1], acts[|acts| - 1];
      MovesKeepNotLive(env, init, m, p);
      if last.MarkMoved? {
        var before := ApplyAll(env, init, m);
        OverwriteKeepsNotLive(before, last.place, p);
        CollapseKeepsNotLive(env, last.place, Overwrite(before, last.place, Moved), p);
      }
    }
  }

  lemma EffectiveAside(m: PlaceMap, m': PlaceMap, p: Place)
    requires SameAbout(m, m', p.local)
    ensures Effective(m, p) == Effective(m', p)
  {
    InheritedAside(m, m', p);
    if b :| b in m && Ancestor(p, b) && Bad(m[b]) { assert b in m' && m'[b] == m[b]; }
    if b :| b in m' && Ancestor(p, b) && Bad(m'[b]) { assert b in m && m[b] == m'[b]; }
  }

  lemma {:induction false} ElsewhereKeeps(env: Env, acts: seq<Action>, m: PlaceMap, x: ValueId)
    requires forall k :: 0 <= k < |acts| ==> ChangesNothing(acts[k]) || acts[k].place.local != x
    ensures SameAbout(m, ApplyAll(env, acts, m), x)
    decreases |acts|
  {
    hide Apply;
    if acts != [] {
      var init, last := acts[..|acts| - 1], acts[|acts| - 1];
      ElsewhereKeeps(env, init, m, x);
      var before := ApplyAll(env, init, m);
      if last.place.local != x { ApplyAside(env, last, before, x); } else { CheckKeeps(env, last, before); }
    }
  }

  lemma CheckKeeps(env: Env, act: Action, m: PlaceMap)
    requires ChangesNothing(act)
    ensures Apply(env, act, m) == m
  {}

  /** A check before the last action meets the table as it was, or after moves. */
  lemma PrefixMoves(env: Env, id: ValueId, inst: Instruction, acts: seq<Action>, k: nat)
    requires ActsAs(env, id, inst, acts) && k < |acts|
    ensures forall n :: 0 <= n < k ==> acts[..k][n].MarkMoved? || ChangesNothing(acts[..k][n])
  {
    hide IsGiven, IsRead, IsFilled, IsDropped;
  }

  lemma CheckedIsFlagged(env: Env, id: ValueId, inst: Instruction, acts: seq<Action>, m: PlaceMap, p: Place)
    requires ActsAs(env, id, inst, acts) && IsRead(env, inst, p) && Effective(m, p) != Live
    ensures Flag(id, p) in FlagSet(env, id, acts, m)
  {
    hide IsGiven, IsRead, IsFilled, IsDropped, Effective, FlagSet;
    var k :| 0 <= k < |acts| && acts[k] == Check(p);
    PrefixMoves(env, id, inst, acts, k);
    MovesKeepNotLive(env, acts[..k], m, p);
    FlagSetHas(env, id, acts, m, Flag(id, p));
    assert Flags(acts[k], ApplyAll(env, acts[..k], m));
  }

  /** Extractions and drops meet the table as it was. */
  lemma PrefixKeeps(env: Env, id: ValueId, inst: Instruction, acts: seq<Action>, k: nat, m: PlaceMap)
    requires ActsAs(env, id, inst, acts) && k < |acts| && forall p :: !IsGiven(env, inst, p)
    ensures ApplyAll(env, acts[..k], m) == m
  {
    hide IsGiven, IsRead, IsFilled, IsDropped, Apply;
    forall n | 0 <= n < k ensures ChangesNothing(acts[..k][n]) {
      assert acts[n] in acts;
      Form(acts[n]);
    }
    ReadsKeepTable(env, acts[..k], m);
  }

  lemma OthersFlagged(env: Env, id: ValueId, inst: Instruction, acts: seq<Action>, m: PlaceMap, p: Place)
    requires ActsAs(env, id, inst, acts)
    ensures IsTaken(env, inst, p) && Untakeable(Effective(m, p)) ==> Flag(id, p) in FlagSet(env, id, acts, m)
    ensures inst.Drop? && IsDropped(env, inst, p) && Effective(m, p) == ConditionallyMoved ==>
      Flag(id, p) in FlagSet(env, id, acts, m)
  {
    hide IsRead, IsFilled, IsDropped, Effective, FlagSet, ApplyAll;
    FlagSetHas(env, id, acts, m, Flag(id, p));
    if inst.Extract? || inst.Drop? {
      assert forall q :: !IsGiven(env, inst, q);
      if CheckField(p) in acts {
        var k :| 0 <= k < |acts| && acts[k] == CheckField(p);
        PrefixKeeps(env, id, inst, acts, k, m);
      }
      if CheckDrop(p) in acts {
        var k :| 0 <= k < |acts| && acts[k] == CheckDrop(p);
        PrefixKeeps(env, id, inst, acts, k, m);
      }
    }
  }

  lemma FlaggedRaises(env: Env, id: ValueId, inst: Instruction, acts: seq<Action>, m: PlaceMap, f: Flag)
    requires ActsAs(env, id, inst, acts) && f in FlagSet(env, id, acts, m)
    ensures f.at == id && Raises(env, inst, m, f.place)
  {
    hide IsRead, IsFilled, IsDropped, IsGiven, Effective, FlagSet, ApplyAll;
    FlagSetHas(env, id, acts, m, f);
    var k :| 0 <= k < |acts| && Flags(acts[k], ApplyAll(env, acts[..k], m)) && f == Flag(id, acts[k].place);
    var p := f.place;
    assert acts[k] in acts;
    Form(acts[k]);
    if acts[k].Check? {
      if !GivesSome(env, inst, p.local) { UngivenKeeps(env, id, inst, acts, k, m, p); }
    } else {
      NoGiver(env, inst, p);
      PrefixKeeps(env, id, inst, acts, k, m);
    }
  }

  lemma NoGiver(env: Env, inst: Instruction, p: Place)
    requires IsTaken(env, inst, p) || inst.Drop?
    ensures forall q :: !IsGiven(env, inst, q)
  {}

  lemma UngivenKeeps(
      env: Env, id: ValueId, inst: Instruction, acts: seq<Action>, k: nat, m: PlaceMap, p: Place)
    requires ActsAs(env, id, inst, acts) && k < |acts| && !GivesSome(env, inst, p.local)
    ensures Effective(ApplyAll(env, acts[..k], m), p) == Effective(m, p)
  {
    hide IsRead, IsFilled, IsDropped, IsGiven, Effective, ApplyAll;
    PrefixMoves(env, id, inst, acts, k);
    forall n | 0 <= n < k ensures ChangesNothing(acts[..k][n]) || acts[..k][n].place.local != p.local {
      assert acts[n] in acts;
      Form(acts[n]);
    }
    ElsewhereKeeps(env, acts[..k], m, p.local);
    EffectiveAside(m, ApplyAll(env, acts[..k], m), p);
  }

  /** The transfer raises what the roles of the operands say, and nothing else. */
  lemma ReportMeant(env: Env, id: ValueId, m: PlaceMap)
    requires id < |env.func.values|
    ensures FlagsMeant(env, id, m, FlagSet(env, id, InstActions(env, id), m))
  {
    hide InstActions, ActsAs, IsGiven, IsRead, IsTaken, IsDropped, Effective, FlagSet, Raises;
    var inst, acts := env.func.values[id], InstActions(env, id);
    ActionsFollowRoles(env, id);
    forall p | IsRead(env, inst, p) && Effective(m, p) != Live ensures Flag(id, p) in FlagSet(env, id, acts, m) {
      CheckedIsFlagged(env, id, inst, acts, m, p);
    }
    forall p { OthersFlagged(env, id, inst, acts, m, p); }
    forall f | f in FlagSet(env, id, acts, m) ensures f.at == id && Raises(env, inst, m, f.place) {
      FlaggedRaises(env, id, inst, acts, m, f);
    }
  }

  /** There is nothing to drop. */
  predicate NoValue(v: MoveState) {
    v.Moved? || v.Dropped? || v.Uninitialized?
  }

  /** A drop is found dead exactly when it drops a place that has no value. */
  ghost predicate DeadMeant(env: Env, id: ValueId, m: PlaceMap, dead: bool)
    requires id < |env.func.values|
  {
    var inst := env.func.values[id];
    dead <==> inst.Drop? && exists p :: IsDropped(env, inst, p) && NoValue(Effective(m, p))
  }

  lemma DropsMeant(env: Env, id: ValueId, m: PlaceMap)
    requires id < |env.func.values|
    ensures DeadMeant(env, id, m, DeadIn(env, InstActions(env, id), m))
  {
    hide InstActions, IsGiven, IsRead, IsTaken, IsDropped, Effective, ApplyAll;
    var inst, acts := env.func.values[id], InstActions(env, id);
    ActionsFollowRoles(env, id);
    if k :| 0 <= k < |acts| && FindsDeadDrop(acts[k], ApplyAll(env, acts[..k], m)) {
      assert acts[k] in acts;
      Form(acts[k]);
      NoGiver(env, inst, acts[k].place);
      PrefixKeeps(env, id, inst, acts, k, m);
    }
    if p :| inst.Drop? && IsDropped(env, inst, p) && NoValue(Effective(m, p)) {
      var k :| 0 <= k < |acts| && acts[k] == CheckDrop(p);
      NoGiver(env, inst, p);
      PrefixKeeps(env, id, inst, acts, k, m);
      assert FindsDeadDrop(acts[k], ApplyAll(env, acts[..k], m));
    }
  }

  // ----- arguments in order --------------------------------------------------------------

  lemma {:induction false} ArgsSplit(env: Env, args: seq<Operand>, j: nat) returns (rest: seq<Action>)
    requires j < |args|
    ensures ArgsOf(env, args) == ArgsOf(env, args[..j]) + CheckOf(env, args[j]) + rest
    decreases |args|
  {
    hide CheckOf, MovedOf;
    var init := args[..|args| - 1];
    if j == |args| - 1 {
      rest := MovedOf(env, args[j]);
    } else {
      rest := ArgsSplit(env, init, j);
      assert init[..j] == args[..j];
      rest := rest + CheckOf(env, args[|args| - 1]) + MovedOf(env, args[|args| - 1]);
    }
  }

  /** The list of arguments comes last among the actions. */
  lemma ArgsLast(env: Env, id: ValueId, inst: Instruction) returns (first: seq<Action>)
    requires ArgList(inst).Some?
    ensures ActionsOf(env, id, inst) == first + ArgsOf(env, ArgList(inst).value)
  {
    hide CheckOf, ArgsOf;
    first := if inst.CallDirect? || inst.Variant? then [] else CheckOf(env, Operands(inst)[0]);
    assert [] + ArgsOf(env, ArgList(inst).value) == ArgsOf(env, ArgList(inst).value);
  }

  /** An argument that lies in one handed over before it, in the same call, is reported. */
  lemma HandedOverTwice(env: Env, id: ValueId, m: PlaceMap, i: nat, j: nat, p: Place, q: Place)
    requires id < |env.func.values| && ArgList(env.func.values[id]).Some?
    requires var args := ArgList(env.func.values[id]).value;
             i < j < |args| && Moves(env, args[i], p) && PlaceOf(env, args[j]) == Some(q) && Ancestor(p, q)
    ensures Flag(id, q) in FlagSet(env, id, InstActions(env, id), m)
  {
    hide ArgsOf, FlagSet, Gone, Flags, ApplyAll, GoneAfter, Ancestor;
    var inst := env.func.values[id];
    var args := ArgList(inst).value;
    var first := ArgsLast(env, id, inst);
    var rest := ArgsSplit(env, args, j);
    var acts := InstActions(env, id);
    var before := ArgsOf(env, args[..j]);
    var k := |first| + |before|;
    assert CheckOf(env, args[j]) == [Check(q)];
    assert acts == first + before + [Check(q)] + rest;
    assert acts[k] == Check(q) && acts[..k] == first + before;
    MovedEarlier(env, args[..j], i, p, q);
    GoneAfterConcat(false, first, before, q);
    GoneAfterRises(GoneAfter(false, first, q), before, q);
    ApplyAllKeepsGone(env, first + before, m, q, false);
    GoneIsFlagged(ApplyAll(env, acts[..k], m), q);
    FlagSetHas(env, id, acts, m, Flag(id, q));
  }

  lemma MovedEarlier(env: Env, args: seq<Operand>, i: nat, p: Place, q: Place)
    requires i < |args| && Moves(env, args[i], p) && Ancestor(p, q)
    ensures GoneAfter(false, ArgsOf(env, args), q)
  {
    hide ArgsOf, Moves, PlaceOf;
    var acts := ArgsOf(env, args);
    ArgsActs(env, args);
    assert SomeMoves(env, args, p);
    assert MarkMoved(p) in acts;
    var k :| 0 <= k < |acts| && acts[k] == MarkMoved(p);
    forall n | k < n < |acts| ensures !Revives(acts[n], q) {
      assert acts[n] in acts;
    }
    GoneAfterMeans(acts, q);
  }

  lemma {:induction false} GoneAfterRises(start: bool, acts: seq<Action>, p: Place)
    requires GoneAfter(false, acts, p)
    ensures GoneAfter(start, acts, p)
    decreases |acts|
  {
    if acts != [] && !Kills(acts[|acts| - 1], p) { GoneAfterRises(start, acts[..|acts| - 1], p); }
  }

  // ----- terminators ---------------------------------------------------------------------

  /** A terminator reads its operand, and a return then hands it over. */
  lemma TermFollowsRoles(env: Env, term: Terminator)
    ensures forall act :: act in TermActions(env, term) <==>
      || (act.Check? && SomeAt(env, TermOperands(term), act.place))
      || (act.MarkMoved? && term.Ret? && SomeMoves(env, TermOperands(term), act.place))
    ensures forall k :: 0 < k < |TermActions(env, term)| ==> !TermActions(env, term)[k].Check?
  {
    hide PlaceOf, Moves, CheckOf, MovedOf;
    match term
    case Ret(Some(value)) => OneOperand(env, value);
    case CondBr(condition, _, _) => OneOperand(env, condition);
    case _ =>
  }

  lemma OneOperand(env: Env, op: Operand)
    ensures forall p :: SomeAt(env, [op], p) <==> PlaceOf(env, op) == Some(p)
    ensures forall p :: SomeMoves(env, [op], p) <==> Moves(env, op, p)
    ensures forall act :: act in CheckOf(env, op) <==> act.Check? && PlaceOf(env, op) == Some(act.place)
    ensures forall act :: act in MovedOf(env, op) <==> act.MarkMoved? && Moves(env, op, act.place)
    ensures |CheckOf(env, op)| <= 1 && (|MovedOf(env, op)| > 0 ==> |CheckOf(env, op)| == 1)
    ensures forall k :: 0 <= k < |MovedOf(env, op)| ==> MovedOf(env, op)[k].MarkMoved?
  {
    hide PlaceOf, Moves;
    OperandActs(env, op);
    forall p ensures SomeAt(env, [op], p) <==> PlaceOf(env, op) == Some(p) {
      if PlaceOf(env, op) == Some(p) { assert [op][0] == op; }
    }
    forall p ensures SomeMoves(env, [op], p) <==> Moves(env, op, p) {
      if Moves(env, op, p) { assert [op][0] == op; }
    }
    OneCheck(env, op);
  }

  lemma OneCheck(env: Env, op: Operand)
    ensures |CheckOf(env, op)| <= 1 && (|MovedOf(env, op)| > 0 ==> |CheckOf(env, op)| == 1)
    ensures forall k :: 0 <= k < |MovedOf(env, op)| ==> MovedOf(env, op)[k].MarkMoved?
  {}
}
