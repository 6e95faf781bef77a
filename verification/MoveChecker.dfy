/** The move analyzer itself: state tables updated in place, reports collected in fields. */
module MoveChecker {
  import opened Wrappers
  import opened Mvir
  import opened Places
  import opened MoveState
  import opened MoveTransfer
  import opened MoveSoundness
  import opened MoveReports
  import opened MoveMeaning
  import opened MoveTermination

  class MoveStateData {
    var isUnvisited: bool
    var places: PlaceMap

    constructor (s: State)
      ensures isUnvisited == s.isUnvisited && places == s.places
    {
      isUnvisited, places := s.isUnvisited, s.places;
    }

    /** Drops every entry at or below `p`, then records `v` for `p`. */
    method Retain(p: Place, v: MoveState)
      modifies this`places
      ensures places == Overwrite(old(places), p, v)
    {
      places := map k | k in places && !Ancestor(p, k) :: places[k];
      places := places[p := v];
    }
  }

  predicate OnlyChecks(inst: Instruction) {
    inst.MakeTraitObject? || inst.MakeSlice? || inst.DropVirt? || inst.CallIntrinsic? || inst.Borrow?
    || inst.Binary? || inst.BoundsCheck? || inst.Tag?
  }

  predicate IsCall(inst: Instruction) {
    inst.CallDirect? || inst.CallIndirect? || inst.CallClosure? || inst.CallVirt?
  }

  predicate IsHandover(inst: Instruction) {
    inst.Assign? || inst.Await? || inst.MakeClosure? || inst.Variant?
  }

  predicate TouchesMemory(inst: Instruction) {
    inst.Alloca? || inst.HeapAlloc? || inst.Store? || inst.Load? || inst.HeapFree? || inst.MarkInit?
    || inst.FieldPtr? || inst.Extract? || inst.Drop?
  }

  lemma ArgsOneMore(env: Env, args: seq<Operand>, i: nat)
    requires i < |args|
    ensures ArgsOf(env, args[..i + 1]) == ArgsOf(env, args[..i]) + (CheckOf(env, args[i]) + MovedOf(env, args[i]))
  {
    hide CheckOf, MovedOf;
    assert args[..i + 1][..i] == args[..i];
  }

  /** When reporting is switched on, the reports grow by what the instruction means to raise, and the
      dead drops by the instruction if it finds nothing to drop; otherwise neither changes. */
  ghost predicate RaisedBy(
      env: Env, at: ValueId, m: PlaceMap, emit: bool, flags: set<Flag>, flags': set<Flag>, dead: set<ValueId>,
      dead': set<ValueId>)
    requires at < |env.func.values|
  {
    if emit then
      && (exists raised :: flags' == flags + raised && FlagsMeant(env, at, m, raised))
      && (exists found :: dead' == dead + (if found then {at} else {}) && DeadMeant(env, at, m, found))
    else flags' == flags && dead' == dead
  }

  lemma PerformedRaises(env: Env, emit: bool, at: ValueId, o: Outcome)
    requires at < |env.func.values|
    ensures var o' := PerformAll(env, emit, at, InstActions(env, at), o);
            RaisedBy(env, at, o.places, emit, o.flagged, o'.flagged, o.deadDrops, o'.deadDrops)
  {
    hide InstActions, FlagsMeant, DeadMeant, FlagSet, DeadIn;
    if emit {
      PerformAllReports(env, at, InstActions(env, at), o);
      PerformAllFindsDead(env, at, InstActions(env, at), o);
      ReportMeant(env, at, o.places);
      DropsMeant(env, at, o.places);
    } else {
      PerformAllSilent(env, at, InstActions(env, at), o);
    }
  }

  lemma {:induction false} PerformAllSilent(env: Env, at: ValueId, acts: seq<Action>, o: Outcome)
    ensures PerformAll(env, false, at, acts, o).flagged == o.flagged
    ensures PerformAll(env, false, at, acts, o).deadDrops == o.deadDrops
    decreases |acts|
  {
    if acts != [] { PerformAllSilent(env, at, acts[..|acts| - 1], o); }
  }

  class MoveAnalyzer {
    const env: Env
    var emitDiagnostics: bool
    var flagged: set<Flag>
    var deadDrops: set<ValueId>
    var valuesToPlaces: map<ValueId, Place>

    ghost predicate Valid()
      reads this
    {
      && valuesToPlaces == env.places
      && forall v :: 0 <= v < |env.func.values| && IsListed(env.func, v) ==> Recorded(env, v)
    }

    constructor (func: Function, copyable: set<ValueId>, droppable: map<Place, seq<nat>>)
      requires BasesPrecede(func)
      ensures Valid() && fresh(this) && env == Env(func, PlacesOf(func), copyable, droppable)
      ensures !emitDiagnostics && flagged == {} && deadDrops == {}
    {
      env := Env(func, PlacesOf(func), copyable, droppable);
      emitDiagnostics, flagged, deadDrops := false, {}, {};
      valuesToPlaces := PlacesOf(func);
      new;
      forall v | 0 <= v < |env.func.values| && IsListed(env.func, v) ensures Recorded(env, v) {
        PlacesAreRecorded(env, v);
      }
    }

    ghost function Seen(state: MoveStateData): Outcome
      reads this, state
    {
      Outcome(state.places, flagged, deadDrops)
    }

    /** Exactly the listed actions have been performed, and nothing else has changed. */
    twostate predicate Did(at: ValueId, acts: seq<Action>, state: MoveStateData)
      reads this, state
    {
      && Seen(state) == PerformAll(env, emitDiagnostics, at, acts, old(Seen(state)))
      && state.isUnvisited == old(state.isUnvisited)
      && emitDiagnostics == old(emitDiagnostics)
      && valuesToPlaces == old(valuesToPlaces)
    }

    method CheckPlace(place: Place, state: MoveStateData, at: ValueId)
      modifies this`flagged
      ensures Did(at, [Check(place)], state)
    {
      ghost var acts := [Check(place)];
      assert acts[..|acts| - 1] == [];
      if !emitDiagnostics { return; }
      var s := GetPlaceState(state.places, place);
      if s != Live {
        flagged := flagged + {Flag(at, place)};
      }
    }

    method CheckOperand(op: Operand, state: MoveStateData, at: ValueId)
      requires Valid()
      modifies this`flagged
      ensures Did(at, CheckOf(env, op), state)
    {
      if op.Value? && op.id in valuesToPlaces {
        CheckPlace(valuesToPlaces[op.id], state, at);
      }
    }

    method MarkMovedOperand(op: Operand, state: MoveStateData, ghost at: ValueId)
      requires Valid()
      modifies state`places
      ensures Did(at, MovedOf(env, op), state)
    {
      if op.Value? {
        if op.id in env.copyable { return; }
        if op.id in valuesToPlaces {
          var place := valuesToPlaces[op.id];
          ghost var acts := [MarkMoved(place)];
          assert acts[..|acts| - 1] == [];
          state.Retain(place, Moved);
          CollapseFullyMovedAncestors(place, state);
        }
      }
    }

    method CollapseFullyMovedAncestors(p: Place, state: MoveStateData)
      modifies state`places
      ensures state.places == Collapse(env, p, old(state.places))
    {
      var place := p;
      while place.projections != []
        invariant Collapse(env, place, state.places) == Collapse(env, p, old(state.places))
        decreases |place.projections|
      {
        var q := Parent(place);
        if q !in env.droppable { return; }
        if env.droppable[q] == [] { return; }
        var allGone := CheckFieldsGone(q, env.droppable[q], state);
        if !allGone { return; }
        state.Retain(q, Moved);
        place := q;
      }
    }

    method CheckFieldsGone(q: Place, fields: seq<nat>, state: MoveStateData) returns (allGone: bool)
      ensures allGone <==> AllFieldsGone(state.places, q, fields)
    {
      for i := 0 to |fields|
        invariant forall j :: 0 <= j < i ==> FieldGone(state.places, q, fields[j])
      {
        var s := GetPlaceState(state.places, Projected(q, Field(fields[i])));
        if !(s.Moved? || s.Dropped? || s.Uninitialized?) {
          assert !FieldGone(state.places, q, fields[i]);
          return false;
        }
      }
      return true;
    }

    method MarkDroppedOperand(op: Operand, state: MoveStateData, ghost at: ValueId)
      requires Valid()
      modifies state`places
      ensures Did(at, DroppedOf(env, op), state)
    {
      if op.Value? && op.id in valuesToPlaces {
        var place := valuesToPlaces[op.id];
        ghost var acts := [MarkDropped(place)];
        assert acts[..|acts| - 1] == [];
        var s := GetPlaceState(state.places, place);
        if s != Moved && s != Uninitialized {
          state.Retain(place, Dropped);
        }
      }
    }

    method MarkLiveOperand(op: Operand, state: MoveStateData, ghost at: ValueId)
      requires Valid()
      modifies state`places
      ensures Did(at, LiveOf(env, op), state)
    {
      if op.Value? && op.id in valuesToPlaces {
        var place := valuesToPlaces[op.id];
        ghost var acts := [MarkLive(place)];
        assert acts[..|acts| - 1] == [];
        state.Retain(place, Live);
        if place.projections != [] {
          var parent := Parent(place);
          if parent in state.places && state.places[parent] == Uninitialized {
            state.places := state.places[parent := Live];
          }
        }
      }
    }

    method CheckThenMove(op: Operand, state: MoveStateData, at: ValueId)
      requires Valid()
      modifies this`flagged, state`places
      ensures Did(at, CheckOf(env, op) + MovedOf(env, op), state)
    {
      PerformAllConcat(env, emitDiagnostics, at, CheckOf(env, op), MovedOf(env, op), Seen(state));
      CheckOperand(op, state, at);
      MarkMovedOperand(op, state, at);
    }

    method CheckThenMoveAll(args: seq<Operand>, state: MoveStateData, at: ValueId)
      requires Valid()
      modifies this`flagged, state`places
      ensures Did(at, ArgsOf(env, args), state)
    {
      hide CheckOf, MovedOf;
      for i := 0 to |args|
        invariant Valid()
        invariant Did(at, ArgsOf(env, args[..i]), state)
      {
        PerformAllConcat(env, emitDiagnostics, at, ArgsOf(env, args[..i]),
          CheckOf(env, args[i]) + MovedOf(env, args[i]), old(Seen(state)));
        CheckThenMove(args[i], state, at);
        ArgsOneMore(env, args, i);
      }
      assert args[..|args|] == args;
    }

    method CheckAll(args: seq<Operand>, state: MoveStateData, at: ValueId)
      requires Valid()
      modifies this`flagged
      ensures Did(at, ChecksOf(env, args), state)
    {
      for i := 0 to |args|
        invariant Valid()
        invariant Did(at, ChecksOf(env, args[..i]), state)
      {
        PerformAllConcat(env, emitDiagnostics, at, ChecksOf(env, args[..i]), CheckOf(env, args[i]), old(Seen(state)));
        CheckOperand(args[i], state, at);
        assert args[..i + 1][..i] == args[..i];
      }
      assert args[..|args|] == args;
    }

    method UseCaptures(cs: seq<Capture>, state: MoveStateData, at: ValueId)
      requires Valid()
      modifies this`flagged, state`places
      ensures Did(at, CapturesOf(env, cs), state)
    {
      for i := 0 to |cs|
        invariant Valid()
        invariant Did(at, CapturesOf(env, cs[..i]), state)
      {
        var source := Value(cs[i].source);
        PerformAllConcat(env, emitDiagnostics, at, CapturesOf(env, cs[..i]), CaptureOf(env, cs[i]), old(Seen(state)));
        if cs[i].mode == MoveCapture {
          CheckThenMove(source, state, at);
        } else {
          assert CaptureOf(env, cs[i]) == CheckOf(env, source);
          CheckOperand(source, state, at);
        }
        assert cs[..i + 1][..i] == cs[..i];
      }
      assert cs[..|cs|] == cs;
    }

    method CheckTwo(left: Operand, right: Operand, state: MoveStateData, at: ValueId)
      requires Valid()
      modifies this`flagged
      ensures Did(at, CheckOf(env, left) + CheckOf(env, right), state)
    {
      PerformAllConcat(env, emitDiagnostics, at, CheckOf(env, left), CheckOf(env, right), Seen(state));
      CheckOperand(left, state, at);
      CheckOperand(right, state, at);
    }

    method CheckThenCall(target: Operand, args: seq<Operand>, state: MoveStateData, at: ValueId)
      requires Valid()
      modifies this`flagged, state`places
      ensures Did(at, CheckOf(env, target) + ArgsOf(env, args), state)
    {
      PerformAllConcat(env, emitDiagnostics, at, CheckOf(env, target), ArgsOf(env, args), Seen(state));
      CheckOperand(target, state, at);
      CheckThenMoveAll(args, state, at);
    }

    method UseStore(ptr: Operand, value: Operand, state: MoveStateData, at: ValueId)
      requires Valid()
      modifies this`flagged, state`places
      ensures Did(at, CheckOf(env, value) + MovedOf(env, value) + LiveOf(env, ptr), state)
    {
      PerformAllConcat(env, emitDiagnostics, at, CheckOf(env, value)
        + MovedOf(env, value), LiveOf(env, ptr), Seen(state));
      CheckThenMove(value, state, at);
      MarkLiveOperand(ptr, state, at);
    }

    method UseExtract(value: Operand, fieldIdx: nat, state: MoveStateData, at: ValueId)
      requires Valid() && at < |env.func.values| && IsListed(env.func, at)
      requires exists variant :: env.func.values[at] == Extract(value, variant, fieldIdx)
      modifies this`flagged, this`valuesToPlaces
      ensures Did(at, if PlaceOf(env, value).Some?
        then [CheckField(Projected(PlaceOf(env, value).value, Field(fieldIdx)))] else [], state)
    {
      if value.Value? && value.id in valuesToPlaces {
        var field := Projected(valuesToPlaces[value.id], Field(fieldIdx));
        assert Recorded(env, at);
        valuesToPlaces := valuesToPlaces[at := field];
        assert valuesToPlaces == old(valuesToPlaces);
        ghost var acts := [CheckField(field)];
        assert acts[..|acts| - 1] == [];
        if emitDiagnostics {
          var s := GetPlaceState(state.places, field);
          if s.Moved? || s.Dropped? || s.ConditionallyMoved? || s.Uninitialized? {
            flagged := flagged + {Flag(at, field)};
          }
        }
      }
    }

    method CheckDropOperand(value: Operand, state: MoveStateData, at: ValueId)
      requires Valid()
      modifies this`flagged, this`deadDrops
      ensures Did(at, DropOf(env, value), state)
    {
      if value.Value? && value.id in valuesToPlaces {
        var place := valuesToPlaces[value.id];
        ghost var acts := [CheckDrop(place)];
        assert acts[..|acts| - 1] == [];
        if emitDiagnostics {
          var s := GetPlaceState(state.places, place);
          if s == ConditionallyMoved {
            flagged := flagged + {Flag(at, place)};
          }
          if s == Moved || s == Dropped || s == Uninitialized {
            deadDrops := deadDrops + {at};
          }
        }
      }
    }

    method UseDrop(value: Operand, state: MoveStateData, at: ValueId)
      requires Valid()
      modifies this`flagged, this`deadDrops, state`places
      ensures Did(
        at, if IsHeapPointerDrop(env.func, value) then [] else DropOf(env, value) + DroppedOf(env, value), state)
    {
      if !IsHeapPointerDrop(env.func, value) {
        PerformAllConcat(env, emitDiagnostics, at, DropOf(env, value), DroppedOf(env, value), Seen(state));
        CheckDropOperand(value, state, at);
        MarkDroppedOperand(value, state, at);
      }
    }

    method Record(at: ValueId, place: Place)
      requires Valid() && at in env.places && env.places[at] == place
      modifies this`valuesToPlaces
      ensures valuesToPlaces == old(valuesToPlaces)
    {
      valuesToPlaces := valuesToPlaces[at := place];
    }

    method Allocate(at: ValueId, state: MoveStateData)
      requires Valid() && at < |env.func.values| && IsListed(env.func, at)
      requires env.func.values[at].Alloca? || env.func.values[at].HeapAlloc?
      modifies this`valuesToPlaces, state`places
      ensures Did(at, InstActions(env, at), state)
    {
      assert Recorded(env, at);
      var p := Place(at, []);
      Record(at, p);
      ghost var acts := InstActions(env, at);
      assert acts[..|acts| - 1] == [];
      if at >= env.func.argCount {
        state.places := state.places[p := Uninitialized];
      } else {
        state.places := state.places[p := Live];
      }
    }

    method UseLoad(ptr: Operand, state: MoveStateData, at: ValueId)
      requires Valid() && at < |env.func.values| && IsListed(env.func, at) && env.func.values[at] == Load(ptr)
      modifies this`flagged, this`valuesToPlaces
      ensures Did(at, CheckOf(env, ptr), state)
    {
      CheckOperand(ptr, state, at);
      if ptr.Value? && IsLvalueAddress(env.func, ptr.id) && ptr.id in valuesToPlaces {
        assert Recorded(env, at);
        Record(at, valuesToPlaces[ptr.id]);
      }
    }

    method UseFieldPtr(base: Operand, fieldIdx: nat, state: MoveStateData, at: ValueId)
      requires Valid() && at < |env.func.values| && IsListed(env.func, at)
        && env.func.values[at] == FieldPtr(base, fieldIdx)
      modifies this`valuesToPlaces
      ensures Did(at, [], state)
    {
      if base.Value? && base.id in valuesToPlaces {
        assert Recorded(env, at);
        Record(at, Projected(valuesToPlaces[base.id], Field(fieldIdx)));
      }
    }

    /** The instructions that only check operands. */
    method TransferCheck(at: ValueId, state: MoveStateData)
      requires Valid() && at < |env.func.values| && IsListed(env.func, at) && OnlyChecks(env.func.values[at])
      modifies this`flagged
      ensures Did(at, InstActions(env, at), state)
    {
      hide PerformAll, CheckOf, MovedOf, ArgsOf, LiveOf, DropOf, DroppedOf, CapturesOf, ChecksOf;
      match env.func.values[at]
      case MakeTraitObject(dataPtr, _) => CheckOperand(dataPtr, state, at);
      case MakeSlice(dataPtr, len) => CheckTwo(dataPtr, len, state, at);
      case DropVirt(obj) => CheckOperand(obj, state, at);
      case CallIntrinsic(_, args) => CheckAll(args, state, at);
      case Borrow(_, base) => CheckOperand(base, state, at);
      case Binary(_, left, right) => CheckTwo(left, right, state, at);
      case BoundsCheck(index, len) => CheckTwo(index, len, state, at);
      case Tag(value) => CheckOperand(value, state, at);
    }

    method TransferCall(at: ValueId, state: MoveStateData)
      requires Valid() && at < |env.func.values| && IsListed(env.func, at) && IsCall(env.func.values[at])
      modifies this`flagged, state`places
      ensures Did(at, InstActions(env, at), state)
    {
      hide PerformAll, CheckOf, MovedOf, ArgsOf, LiveOf, DropOf, DroppedOf, CapturesOf, ChecksOf;
      match env.func.values[at]
      case CallDirect(_, args) => CheckThenMoveAll(args, state, at);
      case CallIndirect(target, args) => CheckThenCall(target, args, state, at);
      case CallClosure(closure, args) => CheckThenCall(closure, args, state, at);
      case CallVirt(obj, _, args) => CheckThenCall(obj, args, state, at);
    }

    method TransferHandover(at: ValueId, state: MoveStateData)
      requires Valid() && at < |env.func.values| && IsListed(env.func, at) && IsHandover(env.func.values[at])
      modifies this`flagged, state`places
      ensures Did(at, InstActions(env, at), state)
    {
      hide PerformAll, CheckOf, MovedOf, ArgsOf, LiveOf, DropOf, DroppedOf, CapturesOf, ChecksOf;
      match env.func.values[at]
      case Assign(op) => CheckThenMove(op, state, at);
      case Await(future) => CheckThenMove(future, state, at);
      case MakeClosure(_, _, captures) => UseCaptures(captures, state, at);
      case Variant(_, args) => CheckThenMoveAll(args, state, at);
    }

    /** The instructions that build, read, write or free memory. */
    method TransferMemory(at: ValueId, state: MoveStateData)
      requires Valid() && at < |env.func.values| && IsListed(env.func, at) && TouchesMemory(env.func.values[at])
      modifies this`flagged, this`deadDrops, this`valuesToPlaces, state`places
      ensures Did(at, InstActions(env, at), state)
    {
      hide PerformAll, CheckOf, MovedOf, ArgsOf, LiveOf, DropOf, DroppedOf, CapturesOf, ChecksOf;
      match env.func.values[at]
      case Alloca => Allocate(at, state);
      case HeapAlloc => Allocate(at, state);
      case Store(ptr, value) => UseStore(ptr, value, state, at);
      case Load(ptr) => UseLoad(ptr, state, at);
      case HeapFree(value) => MarkDroppedOperand(value, state, at);
      case MarkInit(value) => MarkLiveOperand(value, state, at);
      case FieldPtr(base, fieldIdx) => UseFieldPtr(base, fieldIdx, state, at);
      case Extract(value, _, fieldIdx) => UseExtract(value, fieldIdx, state, at);
      case Drop(value, _) => UseDrop(value, state, at);
    }

    /** What has been added to the reports is what the instruction means to raise, from table `m`. */
    twostate predicate RaisedAs(at: ValueId, m: PlaceMap)
      requires at < |env.func.values|
      reads this
    {
      RaisedBy(env, at, m, emitDiagnostics, old(flagged), flagged, old(deadDrops), deadDrops)
    }

    method TransferInstruction(at: ValueId, state: MoveStateData)
      requires Valid() && at < |env.func.values| && IsListed(env.func, at)
      modifies this`flagged, this`deadDrops, this`valuesToPlaces, state`places
      ensures Valid()
      ensures Did(at, InstActions(env, at), state)
      ensures Meant(env, at, old(state.places), state.places)
      ensures RaisedAs(at, old(state.places))
    {
      TableMeant(env, at, state.places);
      PerformAllApplies(env, emitDiagnostics, at, InstActions(env, at), Seen(state));
      PerformedRaises(env, emitDiagnostics, at, Seen(state));
      hide InstActions, PerformAll, Meant, FlagsMeant, DeadMeant, FlagSet, DeadIn, ApplyAll;
      var inst := env.func.values[at];
      if OnlyChecks(inst) {
        TransferCheck(at, state);
      } else if IsCall(inst) {
        TransferCall(at, state);
      } else if IsHandover(inst) {
        TransferHandover(at, state);
      } else if TouchesMemory(inst) {
        TransferMemory(at, state);
      }
    }

    /** Merges `src` into `dest`, meeting the keys of both in an order of the solver's choice. */
    method Merge(dest: MoveStateData, src: State) returns (changed: bool, ghost order: seq<Place>)
      modifies dest
      ensures !dest.isUnvisited
      ensures old(dest.isUnvisited) ==> changed && dest.places == src.places
      ensures !old(dest.isUnvisited) ==>
        && IsOrder(order, old(dest.places), src.places)
        && dest.places == MergeFold(old(dest.places), src.places, order)
        && (changed <==> dest.places != old(dest.places))
    {
      order := [];
      if dest.isUnvisited {
        dest.isUnvisited, dest.places := false, src.places;
        return true, order;
      }
      changed := false;
      var allKeys := dest.places.Keys + src.places.Keys;
      ghost var all := allKeys;
      ghost var climbed := Place(0, []);
      while allKeys != {}
        invariant allKeys <= all && !dest.isUnvisited
        invariant forall i, j :: 0 <= i < j < |order| ==> order[i] != order[j]
        invariant forall k :: k in order <==> k in all && k !in allKeys
        invariant dest.places == MergeFold(old(dest.places), src.places, order)
        invariant changed ==> Weight(old(dest.places), climbed) < Weight(dest.places, climbed)
        invariant !changed ==> dest.places == old(dest.places)
        decreases allKeys
      {
        var k :| k in allKeys;
        allKeys := allKeys - {k};
        ghost var order' := order + [k];
        assert order'[..|order'| - 1] == order;
        MergeFoldAbsorbs(old(dest.places), src.places, order);
        KeyNeverSinks(dest.places, src.places, k, climbed);
        if !changed { climbed := k; }
        var moved := MergeOne(dest, src.places, k);
        changed := changed || moved;
        order := order';
      }
    }

    method MergeOne(dest: MoveStateData, src: PlaceMap, k: Place) returns (changed: bool)
      requires k in dest.places || k in src
      modifies dest`places
      ensures dest.places == MergeKey(old(dest.places), src, k)
      ensures !changed ==> dest.places == old(dest.places)
      ensures changed ==> Weight(old(dest.places), k) < Weight(dest.places, k)
    {
      if k in dest.places && k in src && dest.places[k] == src[k] { return false; }
      var effDest := GetPlaceState(dest.places, k);
      var effSrc := GetPlaceState(src, k);
      var joined := Join(effDest, effSrc);
      if k in dest.places && dest.places[k] == joined {
        assert dest.places[k := joined] == dest.places;
        return false;
      }
      if k in dest.places { LeRaisesHeight(dest.places[k], joined); }
      dest.places := dest.places[k := joined];
      return true;
    }
  }

  lemma KeyNeverSinks(m: PlaceMap, src: PlaceMap, k: Place, q: Place)
    requires k in m || k in src
    ensures Weight(m, q) <= Weight(MergeKey(m, src, k), q)
  {
    if q == k && k in m {
      LeRaisesHeight(m[k], MergeKey(m, src, k)[k]);
    }
  }
}
