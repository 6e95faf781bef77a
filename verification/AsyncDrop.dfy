/** The drop function of an async function: what it frees and drops in each state. */
module AsyncDrop {
  import opened Wrappers
  import opened Mvir
  import opened Decimal
  import opened Places
  import T = TypeMetadata
  import opened AsyncLowering

  /** What the code for dropping a place depends on. */
  datatype DropEnv = DropEnv(
    fields: map<ValueId, nat>,
    fieldType: map<ValueId, T.TypeId>,
    types: seq<T.SemanticType>,
    needsDrop: T.TypeId -> bool,
    callee: (T.TypeId, Place) -> Option<string>)

  function ResolvePlaceType(types: seq<T.SemanticType>, ty: T.TypeId, projections: seq<Projection>): Option<T.TypeId>
    decreases |projections|
  {
    if projections == [] then Some(ty)
    else if ty >= |types| then None
    else
      var next: Option<T.TypeId> :=
        match projections[0]
        case Field(idx) =>
          (match types[ty]
           case Struct(_, _, fields) => if idx < |fields| then Some(fields[idx]) else None
           case Tuple(elems) => if idx < |elems| then Some(elems[idx]) else None
           case _ => None)
        case Deref =>
          (match types[ty]
           case Pointer(_, inner) => Some(inner)
           case Reference(_, _, inner) => Some(inner)
           case _ => None)
        case Index =>
          (match types[ty]
           case Array(inner, _) => Some(inner)
           case Slice(inner) => Some(inner)
           case _ => None);
      if next.None? then None else ResolvePlaceType(types, next.value, projections[1..])
  }

  /** A value of type `ty` holds, or leads to, one of type `part`. */
  ghost predicate PartOf(types: seq<T.SemanticType>, ty: T.TypeId, proj: Projection, part: T.TypeId) {
    && ty < |types|
    && match proj
       case Field(idx) =>
         || (types[ty].Struct? && idx < |types[ty].fields| && part == types[ty].fields[idx])
         || (types[ty].Tuple? && idx < |types[ty].elems| && part == types[ty].elems[idx])
       case Deref =>
         (types[ty].Pointer? && part == types[ty].inner) || (types[ty].Reference? && part == types[ty].inner)
       case Index => (types[ty].Array? && part == types[ty].inner) || (types[ty].Slice? && part == types[ty].inner)
  }

  /** From part to part along the projections. */
  ghost predicate IsTypeWalk(
      types: seq<T.SemanticType>, projections: seq<Projection>, walk: seq<T.TypeId>, from: T.TypeId, to: T.TypeId) {
    && |walk| == |projections| + 1 && walk[0] == from && walk[|projections|] == to
    && forall k :: 0 <= k < |projections| ==> PartOf(types, walk[k], projections[k], walk[k + 1])
  }

  /** A place has the type that its projections lead to, and no type if they lead nowhere. */
  lemma {:induction false} PlaceTypeIff(
      types: seq<T.SemanticType>, ty: T.TypeId, projections: seq<Projection>, to: T.TypeId)
    ensures ResolvePlaceType(types, ty, projections) == Some(to) <==>
      exists walk :: IsTypeWalk(types, projections, walk, ty, to)
    decreases |projections|
  {
    hide PartOf;
    if projections == [] {
      assert IsTypeWalk(types, projections, [ty], ty, ty);
    } else {
      var rest := projections[1..];
      forall part | PartOf(types, ty, projections[0], part)
        ensures ResolvePlaceType(types, ty, projections) == ResolvePlaceType(types, part, rest)
      {
        FirstPart(types, ty, projections, part);
      }
      if ResolvePlaceType(types, ty, projections) == Some(to) {
        var part := SomePart(types, ty, projections);
        PlaceTypeIff(types, part, rest, to);
        var walk :| IsTypeWalk(types, rest, walk, part, to);
        assert forall k :: 1 <= k < |projections| ==> rest[k - 1] == projections[k];
        assert IsTypeWalk(types, projections, [ty] + walk, ty, to);
      }
      if walk :| IsTypeWalk(types, projections, walk, ty, to) {
        assert PartOf(types, walk[0], projections[0], walk[1]);
        assert IsTypeWalk(types, rest, walk[1..], walk[1], to);
        PlaceTypeIff(types, walk[1], rest, to);
      }
    }
  }

  lemma FirstPart(types: seq<T.SemanticType>, ty: T.TypeId, projections: seq<Projection>, part: T.TypeId)
    requires projections != [] && PartOf(types, ty, projections[0], part)
    ensures ResolvePlaceType(types, ty, projections) == ResolvePlaceType(types, part, projections[1..])
  {}

  lemma SomePart(types: seq<T.SemanticType>, ty: T.TypeId, projections: seq<Projection>) returns (part: T.TypeId)
    requires projections != [] && ResolvePlaceType(types, ty, projections).Some?
    ensures PartOf(types, ty, projections[0], part)
  {
    match projections[0]
    case Field(idx) => part := if types[ty].Struct? then types[ty].fields[idx] else types[ty].elems[idx];
    case _ => part := types[ty].inner;
  }

  /** The type of what is dropped at `place`, if its local is in the environment and there is
      anything to drop. */
  function DropType(env: DropEnv, place: Place): Option<T.TypeId> {
    if place.local !in env.fields || place.local !in env.fieldType then None
    else
      match ResolvePlaceType(env.types, env.fieldType[place.local], place.projections)
      case Some(ty) => if env.needsDrop(ty) then Some(ty) else None
      case None => None
  }

  /** The code stops at an index projection. */
  function Walkable(projections: seq<Projection>): nat {
    if projections == [] || projections[0].Index? then 0 else 1 + Walkable(projections[1..])
  }

  predicate Dropped(env: DropEnv, place: Place) {
    DropType(env, place).Some? && Walkable(place.projections) == |place.projections|
  }

  function ProjectionCode(ptr: ValueId, proj: Projection): Instruction {
    match proj
    case Field(idx) => FieldPtr(Value(ptr), idx)
    case _ => Load(Value(ptr))
  }

  /** The code that follows `projections` from the address in value `next - 1`. */
  function WalkCode(next: nat, projections: seq<Projection>): seq<Instruction>
    requires next > 0
    decreases |projections|
  {
    if projections == [] || projections[0].Index? then []
    else [ProjectionCode(next - 1, projections[0])] + WalkCode(next + 1, projections[1..])
  }

  lemma {:induction false} WalkLength(next: nat, projections: seq<Projection>)
    requires next > 0
    ensures |WalkCode(next, projections)| == Walkable(projections) <= |projections|
    decreases |projections|
  {
    if projections != [] && !projections[0].Index? {
      WalkLength(next + 1, projections[1..]);
    }
  }

  /** The code that drops `place`, if it does. */
  function PlaceCode(env: DropEnv, base: nat, place: Place): seq<Instruction> {
    match DropType(env, place)
    case None => []
    case Some(ty) =>
      var reach := [FieldPtr(Value(0), env.fields[place.local])] + WalkCode(base + 1, place.projections);
      if Walkable(place.projections) < |place.projections| then reach
      else
        var last := base + |reach| - 1;
        reach + [Load(Value(last)), Drop(Value(last + 1), env.callee(ty, place))]
  }

  function PlacesCode(env: DropEnv, base: nat, places: seq<Place>): seq<Instruction>
    decreases |places|
  {
    if places == [] then []
    else
      var first := PlaceCode(env, base, places[0]);
      first + PlacesCode(env, base + |first|, places[1..])
  }

  lemma {:induction false} PlacesCodeSnoc(env: DropEnv, base: nat, places: seq<Place>, k: nat)
    requires k < |places|
    ensures PlacesCode(env, base, places[..k + 1])
      == PlacesCode(env, base, places[..k]) + PlaceCode(env, base + |PlacesCode(env, base, places[..k])|, places[k])
    decreases |places|
  {
    hide PlaceCode;
    var first := PlaceCode(env, base, places[0]);
    assert places[..k + 1][1..] == places[1..][..k];
    if k > 0 {
      assert places[..k][1..] == places[1..][..k - 1];
      PlacesCodeSnoc(env, base + |first|, places[1..], k - 1);
    } else {
      assert places[..0] == [];
      assert places[..1][1..] == [];
      assert PlacesCode(env, base + |first|, []) == [];
    }
  }

  // ----- running it ----------------------------------------------------------------------

  datatype Event = DropChild(callee: Option<string>) | DropPlace(place: Place, callee: Option<string>) | FreeEnv

  datatype DVal =
    | EnvPtr | StatePtr | ChildPtr | State(n: int) | Flag(flag: bool) | NullPtr | Child
    | Addr(place: Place) | Content(place: Place)

  datatype DState = DState(regs: map<ValueId, DVal>, events: seq<Event>)

  /** The stored state, and whether a child future is stored. */
  datatype Stored = Stored(state: int, child: bool)

  function DReg(s: DState, op: Operand): Option<DVal> {
    if op.Value? && op.id in s.regs then Some(s.regs[op.id]) else None
  }

  function DSet(s: DState, id: ValueId, v: DVal): DState {
    s.(regs := s.regs[id := v])
  }

  /** The place an address or a stored pointer leads to. */
  function Pointee(v: DVal): Place
    requires v.Addr? || v.Content?
  {
    if v.Addr? then v.place else Projected(v.place, Deref)
  }

  predicate IsPointer(v: DVal) {
    v.Addr? || v.Content?
  }

  ghost function LocalOfField(fields: map<ValueId, nat>, i: nat): ValueId
    requires exists v :: v in fields && fields[v] == i
  {
    var v :| v in fields && fields[v] == i;
    v
  }

  /** Locals have fields of their own, behind the first three. */
  ghost predicate FieldsApart(fields: map<ValueId, nat>) {
    && (forall v :: v in fields ==> fields[v] >= FIRST_LOCAL_FIELD)
    && (forall u, v :: u in fields && v in fields && fields[u] == fields[v] ==> u == v)
  }

  ghost function DExec(
      fields: map<ValueId, nat>, st: Stored, s: DState, id: ValueId, inst: Instruction): Option<DState> {
    match inst
    case Alloca => if id == 0 then Some(DSet(s, 0, EnvPtr)) else None
    case Null => Some(DSet(s, id, NullPtr))
    case FieldPtr(base, i) =>
      (match DReg(s, base)
       case Some(EnvPtr) =>
         if i == STATE_FIELD then Some(DSet(s, id, StatePtr))
         else if i == CHILD_FIELD then Some(DSet(s, id, ChildPtr))
         else if exists v :: v in fields && fields[v] == i
           then Some(DSet(s, id, Addr(Place(LocalOfField(fields, i), []))))
         else None
       case Some(v) => if IsPointer(v) then Some(DSet(s, id, Addr(Projected(Pointee(v), Field(i))))) else None
       case None => None)
    case Load(ptr) =>
      (match DReg(s, ptr)
       case Some(StatePtr) => Some(DSet(s, id, State(st.state)))
       case Some(ChildPtr) => Some(DSet(s, id, Child))
       case Some(v) => if IsPointer(v) then Some(DSet(s, id, Content(Pointee(v)))) else None
       case None => None)
    case Binary(bin, left, right) =>
      (match DReg(s, left)
       case Some(State(n)) =>
         if bin == Eq && right.Number? then Some(DSet(s, id, Flag(n == ParseInt(right.text)))) else None
       case Some(Child) =>
         if bin == NotEq && DReg(s, right) == Some(NullPtr) then Some(DSet(s, id, Flag(st.child))) else None
       case _ => None)
    case Drop(value, callee) =>
      (match DReg(s, value)
       case Some(Child) => Some(s.(events := s.events + [DropChild(callee)]))
       case Some(Content(place)) => Some(s.(events := s.events + [DropPlace(place, callee)]))
       case _ => None)
    case HeapFree(value) =>
      if DReg(s, value) == Some(EnvPtr) then Some(s.(events := s.events + [FreeEnv])) else None
    case _ => None
  }

  ghost function DExecCode(
      fields: map<ValueId, nat>, st: Stored, s: DState, base: nat, code: seq<Instruction>): Option<DState>
    decreases |code|
  {
    if code == [] then Some(s)
    else match DExec(fields, st, s, base, code[0])
      case Some(s') => DExecCode(fields, st, s', base + 1, code[1..])
      case None => None
  }

  lemma {:induction false} DExecConcat(
      fields: map<ValueId, nat>, st: Stored, s: DState, base: nat, a: seq<Instruction>, b: seq<Instruction>)
    ensures DExecCode(fields, st, s, base, a + b)
      == match DExecCode(fields, st, s, base, a)
         case Some(s') => DExecCode(fields, st, s', base + |a|, b)
         case None => None
    decreases |a|
  {
    hide DExec;
    if a == [] {
      assert a + b == b;
    } else {
      assert (a + b)[1..] == a[1..] + b;
      match DExec(fields, st, s, base, a[0]) {
        case Some(s') => DExecConcat(fields, st, s', base + 1, a[1..], b);
        case None =>
      }
    }
  }

  lemma DOneRuns(fields: map<ValueId, nat>, st: Stored, s: DState, id: nat, inst: Instruction)
    ensures DExecCode(fields, st, s, id, [inst]) == DExec(fields, st, s, id, inst)
  {
    hide DExec;
    assert [inst][1..] == [];
  }

  /** `s'` has the values of `s` below `base`. */
  ghost predicate KeepsBelow(s: DState, s': DState, base: nat) {
    forall v: ValueId :: v < base ==> (v in s.regs <==> v in s'.regs) && (v in s.regs ==> s'.regs[v] == s.regs[v])
  }

  /** Following projections from a pointer to `q` leads to the place they name. */
  lemma {:induction false} WalkRuns(
      fields: map<ValueId, nat>, st: Stored, s: DState, next: nat, q: Place, projections: seq<Projection>)
    requires next > 0 && next - 1 in s.regs && IsPointer(s.regs[next - 1]) && Pointee(s.regs[next - 1]) == q
    ensures var r := DExecCode(fields, st, s, next, WalkCode(next, projections));
            var last := next - 1 + Walkable(projections);
            && r.Some? && r.value.events == s.events && KeepsBelow(s, r.value, next)
            && last in r.value.regs && IsPointer(r.value.regs[last])
            && Walkable(projections) <= |projections|
            && Pointee(r.value.regs[last]) == Place(q.local, q.projections + projections[..Walkable(projections)])
    decreases |projections|
  {
    hide DExec, Pointee, ProjectionCode;
    if projections == [] || projections[0].Index? {
      assert q.projections + [] == q.projections;
    } else {
      var inst := ProjectionCode(next - 1, projections[0]);
      ProjectionRuns(fields, st, s, next, projections[0]);
      var s' := DExec(fields, st, s, next, inst).value;
      var q' := Projected(q, projections[0]);
      WalkRuns(fields, st, s', next + 1, q', projections[1..]);
      var code := WalkCode(next, projections);
      assert code[0] == inst && code[1..] == WalkCode(next + 1, projections[1..]);
      var n := Walkable(projections[1..]);
      assert projections[..n + 1] == [projections[0]] + projections[1..][..n];
      assert q'.projections + projections[1..][..n] == q.projections + projections[..n + 1];
    }
  }

  lemma ProjectionRuns(fields: map<ValueId, nat>, st: Stored, s: DState, next: nat, proj: Projection)
    requires next > 0 && next - 1 in s.regs && IsPointer(s.regs[next - 1]) && !proj.Index?
    ensures var r := DExec(fields, st, s, next, ProjectionCode(next - 1, proj));
            && r.Some? && r.value.events == s.events && KeepsBelow(s, r.value, next)
            && next in r.value.regs && IsPointer(r.value.regs[next])
            && Pointee(r.value.regs[next]) == Projected(Pointee(s.regs[next - 1]), proj)
  {}

  /** The event of dropping `place`, if the code for it drops it. */
  function PlaceEvents(env: DropEnv, place: Place): seq<Event> {
    if Dropped(env, place) then [DropPlace(place, env.callee(DropType(env, place).value, place))] else []
  }

  function PlacesEvents(env: DropEnv, places: seq<Place>): seq<Event> {
    if places == [] then [] else PlaceEvents(env, places[0]) + PlacesEvents(env, places[1..])
  }

  /** The code for a place drops that place, or does nothing. */
  lemma PlaceRuns(env: DropEnv, st: Stored, s: DState, base: nat, place: Place)
    requires FieldsApart(env.fields) && base > 0 && DReg(s, Value(0)) == Some(EnvPtr)
    ensures var r := DExecCode(env.fields, st, s, base, PlaceCode(env, base, place));
            && r.Some? && r.value.events == s.events + PlaceEvents(env, place) && KeepsBelow(s, r.value, base)
  {
    hide DropType, DExec, DExecCode, Walkable, WalkCode, FieldsApart;
    WalkLength(base + 1, place.projections);
    if DropType(env, place).Some? {
      DropTypeLocal(env, place);
      var field := FieldPtr(Value(0), env.fields[place.local]);
      var walk := WalkCode(base + 1, place.projections);
      var s1 := DSet(s, base, Addr(Place(place.local, [])));
      FieldRuns(env, st, s, base, place.local);
      DOneRuns(env.fields, st, s, base, field);
      WalkRuns(env.fields, st, s1, base + 1, Place(place.local, []), place.projections);
      DExecConcat(env.fields, st, s, base, [field], walk);
      var s2 := DExecCode(env.fields, st, s1, base + 1, walk).value;
      if Walkable(place.projections) == |place.projections| {
        assert place.projections[..|place.projections|] == place.projections;
        var last := base + |walk|;
        var callee := env.callee(DropType(env, place).value, place);
        var finish := [Load(Value(last)), Drop(Value(last + 1), callee)];
        FinishRuns(env.fields, st, s2, last, place, callee);
        DExecConcat(env.fields, st, s, base, [field] + walk, finish);
        assert PlaceCode(env, base, place) == [field] + walk + finish;
      } else {
        assert s.events + [] == s.events;
      }
    } else {
      NothingRuns(env.fields, st, s, base);
      assert s.events + [] == s.events;
    }
  }

  lemma NothingRuns(fields: map<ValueId, nat>, st: Stored, s: DState, base: nat)
    ensures DExecCode(fields, st, s, base, []) == Some(s)
  {}

  lemma DropTypeLocal(env: DropEnv, place: Place)
    requires DropType(env, place).Some?
    ensures place.local in env.fields
  {}

  lemma FieldRuns(env: DropEnv, st: Stored, s: DState, base: nat, v: ValueId)
    requires FieldsApart(env.fields) && v in env.fields && DReg(s, Value(0)) == Some(EnvPtr)
    ensures DExec(env.fields, st, s, base, FieldPtr(Value(0), env.fields[v])) == Some(DSet(s, base, Addr(Place(v, []))))
  {
    assert LocalOfField(env.fields, env.fields[v]) == v;
  }

  lemma FinishRuns(
      fields: map<ValueId, nat>, st: Stored, s: DState, last: nat, place: Place, callee: Option<string>)
    requires last in s.regs && IsPointer(s.regs[last]) && Pointee(s.regs[last]) == place
    ensures DExecCode(fields, st, s, last + 1, [Load(Value(last)), Drop(Value(last + 1), callee)])
      == Some(DSet(s, last + 1, Content(place)).(events := s.events + [DropPlace(place, callee)]))
  {
    var code := [Load(Value(last)), Drop(Value(last + 1), callee)];
    var s1 := DSet(s, last + 1, Content(place));
    assert DExec(fields, st, s, last + 1, code[0]) == Some(s1);
    DOneRuns(fields, st, s1, last + 2, code[1]);
    assert code[1..] == [code[1]];
  }

  lemma {:induction false} PlacesRun(env: DropEnv, st: Stored, s: DState, base: nat, places: seq<Place>)
    requires FieldsApart(env.fields) && base > 0 && DReg(s, Value(0)) == Some(EnvPtr)
    ensures var r := DExecCode(env.fields, st, s, base, PlacesCode(env, base, places));
            && r.Some? && r.value.events == s.events + PlacesEvents(env, places) && KeepsBelow(s, r.value, base)
    decreases |places|
  {
    hide PlaceCode, PlaceEvents, DExec;
    if places == [] {
      assert s.events + [] == s.events;
    } else {
      var first := PlaceCode(env, base, places[0]);
      PlaceRuns(env, st, s, base, places[0]);
      var s1 := DExecCode(env.fields, st, s, base, first).value;
      PlacesRun(env, st, s1, base + |first|, places[1..]);
      DExecConcat(env.fields, st, s, base, first, PlacesCode(env, base + |first|, places[1..]));
      assert s.events + PlacesEvents(env, places)
        == s.events + PlaceEvents(env, places[0]) + PlacesEvents(env, places[1..]);
    }
  }

  // ----- the function --------------------------------------------------------------------

  datatype DropLabel = Entry | Dispatch(k: nat) | StateOf(k: nat) | ChildOf(k: nat) | LocalsOf(k: nat) | FreeBlock

  function LabelName(l: DropLabel): Label {
    match l
    case Entry => "entry"
    case Dispatch(k) => "drop_dispatch_" + ToText(k)
    case StateOf(k) => "drop_state_" + ToText(k)
    case ChildOf(k) => "drop_child_" + ToText(k)
    case LocalsOf(k) => "drop_locals_" + ToText(k)
    case FreeBlock => "free_env"
  }

  lemma LabelsApart(l: DropLabel, l': DropLabel)
    ensures LabelName(l) == LabelName(l') <==> l == l'
  {
    LabelStart(l);
    LabelStart(l');
    if !l.Entry? && !l.FreeBlock? && !l'.Entry? && !l'.FreeBlock? {
      TextsDiffer("drop_dispatch_", l.k, l'.k);
      TextsDiffer("drop_state_", l.k, l'.k);
      TextsDiffer("drop_child_", l.k, l'.k);
      TextsDiffer("drop_locals_", l.k, l'.k);
    }
  }

  lemma LabelStart(l: DropLabel)
    ensures |LabelName(l)| > 4
    ensures LabelName(l)[0] == match l case Entry => 'e' case FreeBlock => 'f' case _ => 'd'
    ensures !l.Entry? && !l.FreeBlock? ==> |LabelName(l)| > 5
    ensures !l.Entry? && !l.FreeBlock? ==>
              LabelName(l)[5]
                == match l case Dispatch(_) => 'd' case StateOf(_) => 's' case ChildOf(_) => 'c' case _ => 'l'
  {
    hide ToText;
  }

  /** For each state the places to drop, in some order, and what drops the awaited future. */
  datatype Plan = Plan(awaits: nat, live: seq<seq<Place>>, children: seq<Option<string>>)

  ghost predicate PlanOk(plan: Plan) {
    |plan.live| == plan.awaits + 1 && |plan.children| == plan.awaits + 1
  }

  function NextLabel(plan: Plan, k: nat): DropLabel {
    if k < plan.awaits then Dispatch(k + 1) else FreeBlock
  }

  function EqTo(k: int): Instruction {
    Binary(Eq, Value(2), Number(ToText(k)))
  }

  function EntryCode(): seq<Instruction> {
    [Alloca, FieldPtr(Value(0), STATE_FIELD), Load(Value(1)), EqTo(FUTURE_STATE_COMPLETED)]
  }

  /** Compares the stored child future with null. */
  function CheckCode(base: nat): seq<Instruction> {
    [FieldPtr(Value(0), CHILD_FIELD), Load(Value(base)), Null, Binary(NotEq, Value(base + 1), Value(base + 2))]
  }

  function Goto(l: DropLabel): Option<Terminator> {
    Some(Br(LabelName(l)))
  }

  function Branch(v: ValueId, l: DropLabel, l': DropLabel): Option<Terminator> {
    Some(CondBr(Value(v), LabelName(l), LabelName(l')))
  }

  /** A finished block with the given code, added to `c`. */
  function BlockCursor(c: Cursor, l: DropLabel, code: seq<Instruction>, term: Option<Terminator>): Cursor {
    Close(PushAll(Open(c, LabelName(l)), code), term)
  }

  ghost predicate BlockLaid(c: Cursor, l: DropLabel, base: nat, code: seq<Instruction>, term: Option<Terminator>) {
    CodeAt(c, Loc(LabelName(l), 0), base, code) && EndsAt(c, Loc(LabelName(l), |code|), term)
  }

  lemma BlockAdded(c: Cursor, l: DropLabel, code: seq<Instruction>, term: Option<Terminator>)
    requires !c.isOpen
    ensures Grows(c, BlockCursor(c, l, code, term))
    ensures BlockLaid(BlockCursor(c, l, code, term), l, |c.values|, code, term)
  {
    hide Grows, CodeAt, EndsAt, LabelName;
    var begun := Open(c, LabelName(l));
    var pushed := PushAll(begun, code);
    OpenGrows(c, LabelName(l));
    PushAllGrows(begun, code, c.valMap);
    CloseGrows(pushed, term);
    GrowsTrans(c, begun, pushed);
    GrowsTrans(c, pushed, Close(pushed, term));
    CodeStays(pushed, Close(pushed, term), Loc(LabelName(l), 0), |c.values|, code);
  }

  lemma BlockStays(c: Cursor, c': Cursor, l: DropLabel, base: nat, code: seq<Instruction>, term: Option<Terminator>)
    requires Grows(c, c') && BlockLaid(c, l, base, code, term)
    ensures BlockLaid(c', l, base, code, term)
  {
    hide Grows, CodeAt, EndsAt, LabelName;
    CodeStays(c, c', Loc(LabelName(l), 0), base, code);
    EndStays(c, c', Loc(LabelName(l), |code|), term);
  }

  ghost predicate DispatchLaid(c: Cursor, plan: Plan, k: nat, base: nat) {
    base >= 4 && BlockLaid(c, Dispatch(k), base, [EqTo(k)], Branch(base, StateOf(k), NextLabel(plan, k)))
  }

  ghost predicate DropsLaid(c: Cursor, env: DropEnv, l: DropLabel, places: seq<Place>, base: nat) {
    base >= 4 && BlockLaid(c, l, base, PlacesCode(env, base, places), Goto(FreeBlock))
  }

  ghost predicate ChildLaid(c: Cursor, k: nat, callee: Option<string>, base: nat) {
    && base >= 4
    && BlockLaid(c, StateOf(k), base, CheckCode(base), Branch(base + 3, ChildOf(k), LocalsOf(k)))
    && BlockLaid(c, ChildOf(k), base + 4, [Drop(Value(base + 1), callee)], Goto(LocalsOf(k)))
  }

  /** The blocks of state `k` are in place; `base` is the value its dispatch compares in. */
  ghost predicate StateLaid(c: Cursor, env: DropEnv, plan: Plan, k: nat, base: nat)
    requires PlanOk(plan) && k <= plan.awaits
  {
    && DispatchLaid(c, plan, k, base)
    && if k == 0 then DropsLaid(c, env, StateOf(0), plan.live[0], base + 1)
       else ChildLaid(c, k, plan.children[k], base + 1) && DropsLaid(c, env, LocalsOf(k), plan.live[k], base + 6)
  }

  ghost predicate StatesLaid(c: Cursor, env: DropEnv, plan: Plan, n: nat)
    requires PlanOk(plan) && n <= plan.awaits + 1
  {
    forall k: nat {:trigger StateIsLaid(c, env, plan, k)} :: k < n ==> StateIsLaid(c, env, plan, k)
  }

  ghost predicate StateIsLaid(c: Cursor, env: DropEnv, plan: Plan, k: nat)
    requires PlanOk(plan) && k <= plan.awaits
  {
    exists base: nat :: StateLaid(c, env, plan, k, base)
  }

  lemma StateStays(c: Cursor, c': Cursor, env: DropEnv, plan: Plan, k: nat)
    requires PlanOk(plan) && k <= plan.awaits && Grows(c, c') && StateIsLaid(c, env, plan, k)
    ensures StateIsLaid(c', env, plan, k)
  {
    hide Grows, BlockLaid, PlacesCode, CheckCode, Branch, Goto, EqTo;
    var base: nat :| StateLaid(c, env, plan, k, base);
    BlockStays(c, c', Dispatch(k), base, [EqTo(k)], Branch(base, StateOf(k), NextLabel(plan, k)));
    if k == 0 {
      BlockStays(c, c', StateOf(0), base + 1, PlacesCode(env, base + 1, plan.live[0]), Goto(FreeBlock));
    } else {
      BlockStays(c, c', StateOf(k), base + 1, CheckCode(base + 1), Branch(base + 4, ChildOf(k), LocalsOf(k)));
      BlockStays(c, c', ChildOf(k), base + 5, [Drop(Value(base + 2), plan.children[k])], Goto(LocalsOf(k)));
      BlockStays(c, c', LocalsOf(k), base + 6, PlacesCode(env, base + 6, plan.live[k]), Goto(FreeBlock));
    }
    assert StateLaid(c', env, plan, k, base);
  }

  /** Blocks in the order they are built. */
  function LabelAt(i: nat): DropLabel {
    if i == 0 then Entry
    else if i == 1 then Dispatch(0)
    else if i == 2 then StateOf(0)
    else match (i + 1) % 4
      case 0 => Dispatch((i + 1) / 4)
      case 1 => StateOf((i + 1) / 4)
      case 2 => ChildOf((i + 1) / 4)
      case _ => LocalsOf((i + 1) / 4)
  }

  lemma PositionsApart(i: nat, j: nat)
    requires i != j
    ensures LabelAt(i) != LabelAt(j) && LabelAt(i) != FreeBlock
  {}

  /** Blocks built before state `k`. */
  function CountBefore(k: nat): nat {
    if k == 0 then 1 else 4 * k - 1
  }

  ghost predicate InOrder(done: seq<BasicBlock>) {
    forall i :: 0 <= i < |done| ==> done[i].name == LabelName(LabelAt(i))
  }

  lemma InOrderDistinct(done: seq<BasicBlock>, last: BasicBlock)
    requires InOrder(done) && last.name == LabelName(FreeBlock)
    ensures DistinctLabels(done + [last])
  {
    hide LabelName, LabelAt;
    var all := done + [last];
    forall i, j | 0 <= i < j < |all| ensures all[i].name != all[j].name {
      PositionsApart(i, j);
      if j < |done| { LabelsApart(LabelAt(i), LabelAt(j)); } else { LabelsApart(LabelAt(i), FreeBlock); }
    }
  }

  // ----- building it ---------------------------------------------------------------------

  lemma {:induction false} WalkSnoc(next: nat, projections: seq<Projection>, i: nat)
    requires next > 0 && i < |projections| && i < Walkable(projections)
    ensures WalkCode(next, projections[..i + 1])
      == WalkCode(next, projections[..i]) + [ProjectionCode(next - 1 + i, projections[i])]
    ensures |WalkCode(next, projections[..i])| == i
    decreases |projections|
  {
    hide ProjectionCode;
    if i == 0 {
      assert projections[..1] == [projections[0]] && projections[..1][1..] == [] && projections[..0] == [];
      assert WalkCode(next + 1, []) == [];
    } else {
      WalkSnoc(next + 1, projections[1..], i - 1);
      assert projections[..i + 1][1..] == projections[1..][..i];
      assert projections[..i][1..] == projections[1..][..i - 1];
    }
  }

  lemma {:induction false} WalkStops(next: nat, projections: seq<Projection>)
    requires next > 0
    ensures Walkable(projections) <= |projections|
    ensures WalkCode(next, projections[..Walkable(projections)]) == WalkCode(next, projections)
    ensures Walkable(projections) < |projections| ==> projections[Walkable(projections)].Index?
    ensures forall i :: 0 <= i < Walkable(projections) ==> !projections[i].Index?
    decreases |projections|
  {
    if projections != [] && !projections[0].Index? {
      WalkStops(next + 1, projections[1..]);
      var n := Walkable(projections);
      assert projections[..n][1..] == projections[1..][..n - 1];
      assert forall i :: 0 < i < n ==> projections[i] == projections[1..][i - 1];
    }
  }

  /** Follows the projections of a place as far as it can. */
  method EmitWalk(c: Cursor, projections: seq<Projection>) returns (c': Cursor, complete: bool)
    requires |c.values| > 0
    ensures c' == PushAll(c, WalkCode(|c.values|, projections))
    ensures complete <==> Walkable(projections) == |projections|
  {
    hide ProjectionCode, WalkCode;
    ghost var next := |c.values|;
    WalkStops(next, projections);
    c' := c;
    NoWalk(c);
    var ptr := |c.values| - 1;
    for i := 0 to |projections|
      invariant i <= Walkable(projections) && ptr == next - 1 + i
      invariant c' == PushAll(c, WalkCode(next, projections[..i])) && |c'.values| == next + i
    {
      if projections[i].Index? {
        return c', false;
      }
      WalkSnoc(next, projections, i);
      PushAllTwice(c, WalkCode(next, projections[..i]), [ProjectionCode(ptr, projections[i])]);
      PushIsPushAll(c', ProjectionCode(ptr, projections[i]));
      ptr := |c'.values|;
      c' := Push(c', ProjectionCode(ptr - 1, projections[i]));
    }
    complete := true;
  }

  lemma NoWalk(c: Cursor)
    requires |c.values| > 0
    ensures forall projections: seq<Projection> :: WalkCode(|c.values|, projections[..0]) == []
    ensures PushAll(c, []) == c
  {
    assert Ids(|c.values|, 0) == [];
  }

  method EmitDropForPlace(c: Cursor, env: DropEnv, place: Place) returns (c': Cursor)
    requires |c.values| > 0
    ensures c' == PushAll(c, PlaceCode(env, |c.values|, place)) && |c'.values| >= |c.values|
  {
    hide DropType, WalkCode, PushAll, Walkable;
    var ty := DropType(env, place);
    if ty.None? {
      NothingPushed(c);
      return c;
    }
    DropTypeLocal(env, place);
    ghost var base := |c.values|;
    var field := FieldPtr(Value(0), env.fields[place.local]);
    ghost var walk := WalkCode(base + 1, place.projections);
    PushIsPushAll(c, field);
    c' := Push(c, field);
    var complete: bool;
    c', complete := EmitWalk(c', place.projections);
    PushAllTwice(c, [field], walk);
    PushedValues(c, [field] + walk);
    WalkLength(base + 1, place.projections);
    if complete {
      var last := |c'.values| - 1;
      var load, drop := Load(Value(last)), Drop(Value(last + 1), env.callee(ty.value, place));
      PushIsPushAll(c', load);
      PushAllTwice(c, [field] + walk, [load]);
      c' := Push(c', load);
      PushIsPushAll(c', drop);
      PushAllTwice(c, [field] + walk + [load], [drop]);
      c' := Push(c', drop);
      assert [field] + walk + [load] + [drop] == [field] + walk + [load, drop];
    }
  }

  lemma NothingPushed(c: Cursor)
    ensures PushAll(c, []) == c
  {
    assert Ids(|c.values|, 0) == [];
  }

  lemma PushedValues(c: Cursor, code: seq<Instruction>)
    ensures |PushAll(c, code).values| == |c.values| + |code|
  {}

  method EmitDrops(c: Cursor, env: DropEnv, l: DropLabel, places: seq<Place>) returns (c': Cursor)
    requires |c.values| > 0
    ensures c' == BlockCursor(c, l, PlacesCode(env, |c.values|, places), Goto(FreeBlock))
  {
    hide PlaceCode, PlacesCode, PushAll, LabelName;
    c' := Open(c, LabelName(l));
    ghost var start := c';
    ghost var base := |c.values|;
    NoPlaces(env, base, places);
    NothingPushed(c');
    for k := 0 to |places|
      invariant c' == PushAll(start, PlacesCode(env, base, places[..k]))
      invariant |c'.values| == base + |PlacesCode(env, base, places[..k])|
    {
      PlacesCodeSnoc(env, base, places, k);
      c' := EmitDropForPlace(c', env, places[k]);
      PushAllTwice(start, PlacesCode(env, base, places[..k]),
        PlaceCode(env, base + |PlacesCode(env, base, places[..k])|, places[k]));
      PushedValues(start, PlacesCode(env, base, places[..k + 1]));
    }
    assert places[..|places|] == places;
    c' := Close(c', Goto(FreeBlock));
  }

  lemma NoPlaces(env: DropEnv, base: nat, places: seq<Place>)
    ensures PlacesCode(env, base, places[..0]) == []
  {}

  /** The dispatch of state `k`. */
  method EmitDispatch(c: Cursor, plan: Plan, k: nat) returns (c': Cursor)
    ensures c' == BlockCursor(c, Dispatch(k), [EqTo(k)], Branch(|c.values|, StateOf(k), NextLabel(plan, k)))
  {
    hide LabelName, ToText;
    var eq := |c.values|;
    c' := Open(c, LabelName(Dispatch(k)));
    PushIsPushAll(c', EqTo(k));
    c' := Push(c', EqTo(k));
    c' := Close(c', Branch(eq, StateOf(k), NextLabel(plan, k)));
  }

  /** The null check of the stored child future, and the block that drops it. */
  method EmitChild(c: Cursor, k: nat, callee: Option<string>) returns (c': Cursor)
    ensures var checked := BlockCursor(c, StateOf(k), CheckCode(|c.values|),
      Branch(|c.values| + 3, ChildOf(k), LocalsOf(k)));
            c' == BlockCursor(checked, ChildOf(k), [Drop(Value(|c.values| + 1), callee)], Goto(LocalsOf(k)))
  {
    hide LabelName;
    ghost var base := |c.values|;
    c' := Open(c, LabelName(StateOf(k)));
    ghost var start := c';
    var childPtr := |c'.values|;
    c' := Push(c', FieldPtr(Value(0), CHILD_FIELD));
    var child := |c'.values|;
    c' := Push(c', Load(Value(childPtr)));
    var nulled := |c'.values|;
    c' := Push(c', Null);
    var nonNull := |c'.values|;
    c' := Push(c', Binary(NotEq, Value(child), Value(nulled)));
    assert c' == PushAll(start, CheckCode(base));
    c' := Close(c', Branch(nonNull, ChildOf(k), LocalsOf(k)));
    c' := Open(c', LabelName(ChildOf(k)));
    PushIsPushAll(c', Drop(Value(child), callee));
    c' := Push(c', Drop(Value(child), callee));
    c' := Close(c', Goto(LocalsOf(k)));
  }

  /** All blocks of state `k`. */
  method EmitState(c: Cursor, env: DropEnv, plan: Plan, k: nat) returns (c': Cursor)
    requires PlanOk(plan) && k <= plan.awaits && !c.isOpen && |c.values| >= 4
    requires |c.done| == CountBefore(k) && InOrder(c.done)
    ensures !c'.isOpen && |c'.values| >= 4 && |c'.done| == CountBefore(k + 1) && InOrder(c'.done)
    ensures Grows(c, c') && StateIsLaid(c', env, plan, k)
  {
    hide Grows, BlockLaid, LabelName, PlacesCode, CheckCode, EqTo, Branch, Goto, InOrder, BlockCursor;
    var base := |c.values|;
    var c1 := EmitDispatch(c, plan, k);
    AddBlock(c, Dispatch(k), [EqTo(k)], Branch(base, StateOf(k), NextLabel(plan, k)));
    if k == 0 {
      c' := EmitDrops(c1, env, StateOf(0), plan.live[0]);
      AddBlock(c1, StateOf(0), PlacesCode(env, base + 1, plan.live[0]), Goto(FreeBlock));
      BlockStays(c1, c', Dispatch(k), base, [EqTo(k)], Branch(base, StateOf(k), NextLabel(plan, k)));
      GrowsTrans(c, c1, c');
    } else {
      var c3 := EmitChild(c1, k, plan.children[k]);
      ghost var c2 := BlockCursor(c1, StateOf(k), CheckCode(base + 1), Branch(base + 4, ChildOf(k), LocalsOf(k)));
      AddBlock(c1, StateOf(k), CheckCode(base + 1), Branch(base + 4, ChildOf(k), LocalsOf(k)));
      CheckLength(base + 1);
      AddBlock(c2, ChildOf(k), [Drop(Value(base + 2), plan.children[k])], Goto(LocalsOf(k)));
      c' := EmitDrops(c3, env, LocalsOf(k), plan.live[k]);
      AddBlock(c3, LocalsOf(k), PlacesCode(env, base + 6, plan.live[k]), Goto(FreeBlock));
      GrowsTrans(c2, c3, c');
      GrowsTrans(c1, c2, c');
      GrowsTrans(c, c1, c');
      BlockStays(c1, c', Dispatch(k), base, [EqTo(k)], Branch(base, StateOf(k), NextLabel(plan, k)));
      BlockStays(c2, c', StateOf(k), base + 1, CheckCode(base + 1), Branch(base + 4, ChildOf(k), LocalsOf(k)));
      BlockStays(c3, c', ChildOf(k), base + 5, [Drop(Value(base + 2), plan.children[k])], Goto(LocalsOf(k)));
    }
    assert StateLaid(c', env, plan, k, base);
  }

  lemma CheckLength(base: nat)
    ensures |CheckCode(base)| == 4
  {}

  /** Adding the block whose turn it is. */
  lemma AddBlock(c: Cursor, l: DropLabel, code: seq<Instruction>, term: Option<Terminator>)
    requires !c.isOpen && InOrder(c.done) && l == LabelAt(|c.done|)
    ensures var c' := BlockCursor(c, l, code, term);
            && !c'.isOpen && |c'.done| == |c.done| + 1 && InOrder(c'.done) && |c'.values| == |c.values| + |code|
            && Grows(c, c') && BlockLaid(c', l, |c.values|, code, term)
  {
    hide Grows, BlockLaid, LabelName, LabelAt;
    BlockAdded(c, l, code, term);
  }

  ghost predicate BuiltDrop(fn: Function, c: Cursor, env: DropEnv, plan: Plan) {
    && PlanOk(plan)
    && fn == Function(1, c.done, c.values) && !c.isOpen && DistinctLabels(c.done)
    && |c.done| > 0 && c.done[0].name == LabelName(Entry)
    && BlockLaid(c, Entry, 0, EntryCode(), Branch(3, FreeBlock, Dispatch(0)))
    && StatesLaid(c, env, plan, plan.awaits + 1)
    && FreeLaid(c)
  }

  ghost predicate FreeLaid(c: Cursor) {
    exists base: nat :: base >= 4 && BlockLaid(c, FreeBlock, base, [HeapFree(Value(0))], Some(Ret(None)))
  }

  method EmitEntry() returns (c: Cursor)
    ensures c == BlockCursor(Cursor([], map[], [], false, "", [], []), Entry, EntryCode(),
      Branch(3, FreeBlock, Dispatch(0)))
  {
    hide LabelName, ToText;
    c := Open(Cursor([], map[], [], false, "", [], []), LabelName(Entry));
    ghost var start := c;
    var envArg := |c.values|;
    c := Push(c, Alloca);
    var statePtr := |c.values|;
    c := Push(c, FieldPtr(Value(envArg), STATE_FIELD));
    c := Push(c, Load(Value(statePtr)));
    var completed := |c.values|;
    c := Push(c, EqTo(FUTURE_STATE_COMPLETED));
    assert c == PushAll(start, EntryCode());
    c := Close(c, Branch(completed, FreeBlock, Dispatch(0)));
  }

  /** The drop function for the given plan. */
  method BuildDrop(env: DropEnv, plan: Plan) returns (fn: Function)
    requires PlanOk(plan)
    ensures exists c :: BuiltDrop(fn, c, env, plan)
  {
    hide Grows, BlockLaid, LabelName, StateIsLaid, Branch, EntryCode, InOrder, BlockCursor;
    var cur := EmitEntry();
    StartEntry();
    for k := 0 to plan.awaits + 1
      invariant !cur.isOpen && |cur.values| >= 4 && |cur.done| == CountBefore(k) && InOrder(cur.done)
      invariant BlockLaid(cur, Entry, 0, EntryCode(), Branch(3, FreeBlock, Dispatch(0)))
      invariant StatesLaid(cur, env, plan, k)
    {
      ghost var before := cur;
      cur := EmitState(cur, env, plan, k);
      BlockStays(before, cur, Entry, 0, EntryCode(), Branch(3, FreeBlock, Dispatch(0)));
      StatesStay(before, cur, env, plan, k);
    }
    ghost var before := cur;
    ghost var base := |cur.values|;
    cur := EmitFree(cur);
    BlockAdded(before, FreeBlock, [HeapFree(Value(0))], Some(Ret(None)));
    BlockStays(before, cur, Entry, 0, EntryCode(), Branch(3, FreeBlock, Dispatch(0)));
    StatesStay(before, cur, env, plan, plan.awaits + 1);
    FreeAdded(before);
    fn := Function(1, cur.done, cur.values);
    assert BuiltDrop(fn, cur, env, plan);
  }

  method EmitFree(c: Cursor) returns (c': Cursor)
    ensures c' == BlockCursor(c, FreeBlock, [HeapFree(Value(0))], Some(Ret(None)))
  {
    c' := Open(c, LabelName(FreeBlock));
    PushIsPushAll(c', HeapFree(Value(0)));
    c' := Push(c', HeapFree(Value(0)));
    c' := Close(c', Some(Ret(None)));
  }

  lemma StartEntry()
    ensures var c := BlockCursor(Cursor([], map[], [], false, "", [], []), Entry, EntryCode(),
      Branch(3, FreeBlock, Dispatch(0)));
            && !c.isOpen && |c.values| == 4 && |c.done| == CountBefore(0) && InOrder(c.done)
            && BlockLaid(c, Entry, 0, EntryCode(), Branch(3, FreeBlock, Dispatch(0)))
  {
    hide BlockLaid, LabelName, ToText, Grows;
    BlockAdded(Cursor([], map[], [], false, "", [], []), Entry, EntryCode(), Branch(3, FreeBlock, Dispatch(0)));
  }

  lemma StatesStay(c: Cursor, c': Cursor, env: DropEnv, plan: Plan, k: nat)
    requires PlanOk(plan) && k <= plan.awaits + 1 && Grows(c, c') && StatesLaid(c, env, plan, k)
    ensures StatesLaid(c', env, plan, k)
  {
    hide Grows, StateIsLaid;
    forall i: nat | i < k ensures StateIsLaid(c', env, plan, i) {
      StateStays(c, c', env, plan, i);
    }
  }

  lemma FreeAdded(c: Cursor)
    requires !c.isOpen && InOrder(c.done) && |c.done| > 0 && |c.values| >= 4
    ensures var c' := BlockCursor(c, FreeBlock, [HeapFree(Value(0))], Some(Ret(None)));
            && !c'.isOpen && DistinctLabels(c'.done) && |c'.done| > 0 && c'.done[0].name == LabelName(Entry)
              && FreeLaid(c')
  {
    hide Grows, BlockLaid, LabelName;
    BlockAdded(c, FreeBlock, [HeapFree(Value(0))], Some(Ret(None)));
    var c' := BlockCursor(c, FreeBlock, [HeapFree(Value(0))], Some(Ret(None)));
    InOrderDistinct(c.done, c'.done[|c.done|]);
    assert c'.done == c.done + [c'.done[|c.done|]];
    assert LabelAt(0) == Entry;
  }
}
