/** What each instruction does to the move states, as a list of primitive actions. */
module MoveTransfer {
  import opened Wrappers
  import opened Mvir
  import opened Places
  import opened MoveState

  /** `places` says which place a value denotes, `copyable` which values have a type that a
      use does not move, `droppable` which fields of a place own something to drop
      (no entry: the place's type cannot be collapsed). */
  datatype Env = Env(
    func: Function, places: map<ValueId, Place>, copyable: set<ValueId>, droppable: map<Place, seq<nat>>)

  datatype Action =
    | Check(place: Place)
    | CheckField(place: Place)
    | CheckDrop(place: Place)
    | MarkMoved(place: Place)
    | MarkLive(place: Place)
    | MarkDropped(place: Place)
    | Allocate(place: Place, state: MoveState)

  // ----- which actions an instruction stands for -----------------------------------------

  function PlaceOf(env: Env, op: Operand): Option<Place> {
    if op.Value? && op.id in env.places then Some(env.places[op.id]) else None
  }

  function CheckOf(env: Env, op: Operand): seq<Action> {
    if PlaceOf(env, op).Some? then [Check(PlaceOf(env, op).value)] else []
  }

  function MovedOf(env: Env, op: Operand): seq<Action> {
    if op.Value? && op.id !in env.copyable && op.id in env.places then [MarkMoved(env.places[op.id])] else []
  }

  function LiveOf(env: Env, op: Operand): seq<Action> {
    if PlaceOf(env, op).Some? then [MarkLive(PlaceOf(env, op).value)] else []
  }

  function DroppedOf(env: Env, op: Operand): seq<Action> {
    if PlaceOf(env, op).Some? then [MarkDropped(PlaceOf(env, op).value)] else []
  }

  function DropOf(env: Env, op: Operand): seq<Action> {
    if PlaceOf(env, op).Some? then [CheckDrop(PlaceOf(env, op).value)] else []
  }

  /** Each argument is checked, then moved, before the next one is looked at. */
  function ArgsOf(env: Env, args: seq<Operand>): seq<Action> {
    if args == [] then []
    else ArgsOf(env, args[..|args| - 1]) + CheckOf(env, args[|args| - 1]) + MovedOf(env, args[|args| - 1])
  }

  function ChecksOf(env: Env, args: seq<Operand>): seq<Action> {
    if args == [] then [] else ChecksOf(env, args[..|args| - 1]) + CheckOf(env, args[|args| - 1])
  }

  function CaptureOf(env: Env, c: Capture): seq<Action> {
    CheckOf(env, Value(c.source)) + (if c.mode == MoveCapture then MovedOf(env, Value(c.source)) else [])
  }

  function CapturesOf(env: Env, cs: seq<Capture>): seq<Action> {
    if cs == [] then [] else CapturesOf(env, cs[..|cs| - 1]) + CaptureOf(env, cs[|cs| - 1])
  }

  /** A drop of a pointer held in a temporary frees what it points to, not a tracked place. */
  predicate IsHeapPointerDrop(func: Function, op: Operand) {
    op.Value? && op.id < |func.values| &&
    var inst := func.values[op.id];
    inst.Load? || inst.CallDirect? || inst.CallIndirect? || inst.Cast? || inst.Assign?
  }

  function ActionsOf(env: Env, id: ValueId, inst: Instruction): seq<Action> {
    match inst
    case Alloca => [Allocate(Place(id, []), if id >= env.func.argCount then Uninitialized else Live)]
    case HeapAlloc => [Allocate(Place(id, []), if id >= env.func.argCount then Uninitialized else Live)]
    case Assign(op) => CheckOf(env, op) + MovedOf(env, op)
    case Store(ptr, value) => CheckOf(env, value) + MovedOf(env, value) + LiveOf(env, ptr)
    case Load(ptr) => CheckOf(env, ptr)
    case CallDirect(_, args) => ArgsOf(env, args)
    case CallIndirect(target, args) => CheckOf(env, target) + ArgsOf(env, args)
    case Await(future) => CheckOf(env, future) + MovedOf(env, future)
    case CallClosure(closure, args) => CheckOf(env, closure) + ArgsOf(env, args)
    case MakeClosure(_, _, captures) => CapturesOf(env, captures)
    case MakeTraitObject(dataPtr, _) => CheckOf(env, dataPtr)
    case MakeSlice(dataPtr, len) => CheckOf(env, dataPtr) + CheckOf(env, len)
    case DropVirt(obj) => CheckOf(env, obj)
    case CallIntrinsic(_, args) => ChecksOf(env, args)
    case CallVirt(obj, _, args) => CheckOf(env, obj) + ArgsOf(env, args)
    case Borrow(_, base) => CheckOf(env, base)
    case Binary(_, left, right) => CheckOf(env, left) + CheckOf(env, right)
    case HeapFree(value) => DroppedOf(env, value)
    case MarkInit(value) => LiveOf(env, value)
    case BoundsCheck(index, len) => CheckOf(env, index) + CheckOf(env, len)
    case Variant(_, args) => ArgsOf(env, args)
    case Tag(value) => CheckOf(env, value)
    case Extract(value, _, fieldIdx) =>
      if PlaceOf(env, value).Some? then [CheckField(Projected(PlaceOf(env, value).value, Field(fieldIdx)))] else []
    case Drop(value, _) =>
      if IsHeapPointerDrop(env.func, value) then [] else DropOf(env, value) + DroppedOf(env, value)
    case _ => []
  }

  function InstActions(env: Env, id: ValueId): seq<Action> {
    if id < |env.func.values| then ActionsOf(env, id, env.func.values[id]) else []
  }

  function TermActions(env: Env, term: Terminator): seq<Action> {
    match term
    case Ret(Some(value)) => CheckOf(env, value) + MovedOf(env, value)
    case CondBr(condition, _, _) => CheckOf(env, condition)
    case _ => []
  }

  // ----- what an action does to the table ------------------------------------------------

  function Without(m: PlaceMap, p: Place): (r: PlaceMap)
    ensures forall k :: k in r <==> k in m && !Ancestor(p, k)
    ensures forall k :: k in r ==> r[k] == m[k]
  {
    map k | k in m && !Ancestor(p, k) :: m[k]
  }

  function Overwrite(m: PlaceMap, p: Place, v: MoveState): PlaceMap {
    Without(m, p)[p := v]
  }

  predicate FieldGone(m: PlaceMap, p: Place, f: nat) {
    var v := Effective(m, Projected(p, Field(f)));
    v.Moved? || v.Dropped? || v.Uninitialized?
  }

  predicate AllFieldsGone(m: PlaceMap, p: Place, fields: seq<nat>) {
    forall i | 0 <= i < |fields| :: FieldGone(m, p, fields[i])
  }

  /** `a` has fields that own something and can be moved one by one. */
  predicate CanCollapse(env: Env, a: Place) {
    a in env.droppable && env.droppable[a] != []
  }

  /** A place all of whose droppable fields are gone counts as moved itself, and so upwards. */
  function Collapse(env: Env, p: Place, m: PlaceMap): PlaceMap
    decreases |p.projections|
  {
    if p.projections == [] then m
    else
      var q := Parent(p);
      if q !in env.droppable || env.droppable[q] == [] then m
      else if AllFieldsGone(m, q, env.droppable[q]) then
        Collapse(env, q, Overwrite(m, q, Moved))
      else m
  }

  function Apply(env: Env, act: Action, m: PlaceMap): PlaceMap {
    match act
    case Check(_) => m
    case CheckField(_) => m
    case CheckDrop(_) => m
    case MarkMoved(p) => Collapse(env, p, Overwrite(m, p, Moved))
    case MarkLive(p) =>
      var m' := Overwrite(m, p, Live);
      if p.projections != [] && Parent(p) in m' && m'[Parent(p)] == Uninitialized
      then m'[Parent(p) := Live] else m'
    case MarkDropped(p) =>
      if Effective(m, p) == Moved || Effective(m, p) == Uninitialized then m else Overwrite(m, p, Dropped)
    case Allocate(p, v) => m[p := v]
  }

  function ApplyAll(env: Env, acts: seq<Action>, m: PlaceMap): PlaceMap {
    if acts == [] then m else Apply(env, acts[|acts| - 1], ApplyAll(env, acts[..|acts| - 1], m))
  }

  lemma {:induction false} ApplyAllConcat(env: Env, a: seq<Action>, b: seq<Action>, m: PlaceMap)
    ensures ApplyAll(env, a + b, m) == ApplyAll(env, b, ApplyAll(env, a, m))
    decreases |b|
  {
    if b == [] {
      assert a + b == a;
    } else {
      var init := b[..|b| - 1];
      assert (a + b)[..|a + b| - 1] == a + init;
      ApplyAllConcat(env, a, init, m);
    }
  }

  // ----- what reporting adds -------------------------------------------------------------

  datatype Flag = Flag(at: ValueId, place: Place)

  /** The table together with what has been reported. */
  datatype Outcome = Outcome(places: PlaceMap, flagged: set<Flag>, deadDrops: set<ValueId>)

  predicate Flags(act: Action, m: PlaceMap) {
    match act
    case Check(p) => Effective(m, p) != Live
    case CheckField(p) =>
      var v := Effective(m, p); v.Moved? || v.Dropped? || v.ConditionallyMoved? || v.Uninitialized?
    case CheckDrop(p) => Effective(m, p) == ConditionallyMoved
    case _ => false
  }

  predicate FindsDeadDrop(act: Action, m: PlaceMap) {
    act.CheckDrop? &&
    var v := Effective(m, act.place);
    v.Moved? || v.Dropped? || v.Uninitialized?
  }

  function Perform(env: Env, emit: bool, at: ValueId, act: Action, o: Outcome): Outcome {
    Outcome(
      Apply(env, act, o.places),
      if emit && Flags(act, o.places) then o.flagged + {Flag(at, act.place)} else o.flagged,
      if emit && FindsDeadDrop(act, o.places) then o.deadDrops + {at} else o.deadDrops)
  }

  function PerformAll(env: Env, emit: bool, at: ValueId, acts: seq<Action>, o: Outcome): Outcome {
    if acts == [] then o
    else Perform(env, emit, at, acts[|acts| - 1], PerformAll(env, emit, at, acts[..|acts| - 1], o))
  }

  lemma {:induction false} PerformAllConcat(
      env: Env, emit: bool, at: ValueId, a: seq<Action>, b: seq<Action>, o: Outcome)
    ensures PerformAll(env, emit, at, a + b, o) == PerformAll(env, emit, at, b, PerformAll(env, emit, at, a, o))
    decreases |b|
  {
    if b == [] {
      assert a + b == a;
    } else {
      var init := b[..|b| - 1];
      assert (a + b)[..|a + b| - 1] == a + init;
      PerformAllConcat(env, emit, at, a, init, o);
    }
  }

  /** Performing keeps the table in step with applying and loses no report. */
  lemma {:induction false} PerformAllApplies(env: Env, emit: bool, at: ValueId, acts: seq<Action>, o: Outcome)
    ensures PerformAll(env, emit, at, acts, o).places == ApplyAll(env, acts, o.places)
    ensures o.flagged <= PerformAll(env, emit, at, acts, o).flagged
    decreases |acts|
  {
    if acts != [] {
      PerformAllApplies(env, emit, at, acts[..|acts| - 1], o);
    }
  }

  // ----- the place of every value --------------------------------------------------------

  predicate IsLvalueAddress(func: Function, v: ValueId) {
    v < |func.values| && (func.values[v].Alloca? || func.values[v].HeapAlloc? || func.values[v].FieldPtr?)
  }

  /** The place the analysis records for a value when it meets it in a block, following operands
      to earlier values. */
  function PlaceOfValue(func: Function, v: ValueId): Option<Place> {
    if v >= |func.values| || !IsListed(func, v) then None
    else
      match func.values[v]
      case Alloca => Some(Place(v, []))
      case HeapAlloc => Some(Place(v, []))
      case FieldPtr(Value(b), f) =>
        if b < v && PlaceOfValue(func, b).Some? then Some(Projected(PlaceOfValue(func, b).value, Field(f))) else None
      case Extract(Value(b), _, f) =>
        if b < v && PlaceOfValue(func, b).Some? then Some(Projected(PlaceOfValue(func, b).value, Field(f))) else None
      case Load(Value(b)) =>
        if b < v && IsLvalueAddress(func, b) then PlaceOfValue(func, b) else None
      case _ => None
  }

  function PlacesOf(func: Function): map<ValueId, Place> {
    map v | 0 <= v < |func.values| && PlaceOfValue(func, v).Some? :: PlaceOfValue(func, v).value
  }

  /** Where a value's place comes from: a local is its own, and a field, an extracted part and a
      loaded slot have theirs from the value before. */
  ghost predicate PlaceStep(func: Function, from: (ValueId, Place), to: (ValueId, Place)) {
    && from.0 < to.0 < |func.values| && IsListed(func, to.0)
    && (var inst := func.values[to.0];
        || (inst.FieldPtr? && inst.base == Value(from.0) && to.1 == Projected(from.1, Field(inst.fieldIdx)))
        || (inst.Extract? && inst.value == Value(from.0) && to.1 == Projected(from.1, Field(inst.fieldIdx)))
        || (inst.Load? && inst.ptr == Value(from.0) && to.1 == from.1
            && (var slot := func.values[from.0]; slot.Alloca? || slot.HeapAlloc? || slot.FieldPtr?)))
  }

  ghost predicate IsPlaceWalk(func: Function, walk: seq<(ValueId, Place)>, v: ValueId, p: Place) {
    && |walk| > 0 && walk[|walk| - 1] == (v, p) && walk[0].0 < |func.values| && IsListed(func, walk[0].0)
    && (func.values[walk[0].0].Alloca? || func.values[walk[0].0].HeapAlloc?) && walk[0].1 == Place(walk[0].0, [])
    && forall k :: 0 <= k < |walk| - 1 ==> PlaceStep(func, walk[k], walk[k + 1])
  }

  /** A value has a place exactly when steps lead to it from a local. */
  lemma {:induction false} PlaceIffWalk(func: Function, v: ValueId, p: Place)
    ensures PlaceOfValue(func, v) == Some(p) <==> exists walk :: IsPlaceWalk(func, walk, v, p)
    decreases v
  {
    hide IsListed;
    if PlaceOfValue(func, v) == Some(p) {
      var inst := func.values[v];
      if inst.Alloca? || inst.HeapAlloc? {
        assert IsPlaceWalk(func, [(v, p)], v, p);
      } else {
        var b := if inst.FieldPtr? then inst.base.id else if inst.Extract? then inst.value.id else inst.ptr.id;
        var q := PlaceOfValue(func, b).value;
        PlaceIffWalk(func, b, q);
        var walk :| IsPlaceWalk(func, walk, b, q);
        assert PlaceStep(func, (b, q), (v, p));
        assert IsPlaceWalk(func, walk + [(v, p)], v, p);
      }
    }
    if walk :| IsPlaceWalk(func, walk, v, p) {
      if |walk| > 1 {
        var (b, q) := walk[|walk| - 2];
        assert PlaceStep(func, walk[|walk| - 2], walk[|walk| - 1]);
        assert IsPlaceWalk(func, walk[..|walk| - 1], b, q);
        PlaceIffWalk(func, b, q);
      }
    }
  }

  /** Values are numbered in the order they are built, so what they project from comes first. */
  ghost predicate BasesPrecede(func: Function) {
    forall v :: 0 <= v < |func.values| ==>
      match func.values[v]
      case FieldPtr(Value(b), _) => b < v
      case Extract(Value(b), _, _) => b < v
      case Load(Value(b)) => b < v
      case _ => true
  }

  /** Recording the place of `v` again changes nothing. */
  ghost predicate Recorded(env: Env, v: ValueId)
    requires v < |env.func.values|
  {
    match env.func.values[v]
    case Alloca => v in env.places && env.places[v] == Place(v, [])
    case HeapAlloc => v in env.places && env.places[v] == Place(v, [])
    case FieldPtr(Value(b), f) =>
      b in env.places ==> v in env.places && env.places[v] == Projected(env.places[b], Field(f))
    case Extract(Value(b), _, f) =>
      b in env.places ==> v in env.places && env.places[v] == Projected(env.places[b], Field(f))
    case Load(Value(b)) =>
      b in env.places && IsLvalueAddress(env.func, b) ==> v in env.places && env.places[v] == env.places[b]
    case _ => true
  }

  lemma PlacesAreRecorded(env: Env, v: ValueId)
    requires env.places == PlacesOf(env.func) && BasesPrecede(env.func)
    requires v < |env.func.values| && IsListed(env.func, v)
    ensures Recorded(env, v)
  {}
}
