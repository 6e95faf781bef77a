/** Alias chains of the borrow analysis, and the loans that are active at a point. */
module BorrowLoans {
  import opened Wrappers
  import opened Mvir
  import Sets

  // ----- alias chains --------------------------------------------------------------------

  type AliasMap = map<ValueId, Operand>

  /** Aliases lead to values of smaller ids. */
  ghost predicate Descending(aliases: AliasMap) {
    forall v :: v in aliases && aliases[v].Value? ==> aliases[v].id < v
  }

  /** The end of the alias chain that starts at `op`. */
  ghost function Resolve(aliases: AliasMap, op: Operand): (end: Operand)
    requires Descending(aliases)
    ensures end.Value? ==> end.id !in aliases && (op.Value? && end.id <= op.id)
    decreases if op.Value? then op.id + 1 else 0
  {
    if op.Value? && op.id in aliases then Resolve(aliases, aliases[op.id]) else op
  }

  method ResolveAlias(aliases: AliasMap, op: Operand) returns (current: Operand)
    requires Descending(aliases)
    ensures current == Resolve(aliases, op)
  {
    current := op;
    while current.Value? && current.id in aliases
      invariant Resolve(aliases, current) == Resolve(aliases, op)
      decreases if current.Value? then current.id + 1 else 0
    {
      current := aliases[current.id];
    }
  }

  /** `op` after `n` steps along its alias chain. */
  function Follow(aliases: AliasMap, op: Operand, n: nat): Operand {
    if n == 0 then op
    else
      var before := Follow(aliases, op, n - 1);
      if before.Value? && before.id in aliases then aliases[before.id] else before
  }

  predicate HasAlias(aliases: AliasMap, op: Operand) {
    op.Value? && op.id in aliases
  }

  /** The chain stops after some number of steps. */
  ghost predicate Ends(aliases: AliasMap, op: Operand) {
    exists n: nat :: !HasAlias(aliases, Follow(aliases, op, n))
  }

  /** The chain comes back to a value that it goes on from. */
  ghost predicate Revisits(aliases: AliasMap, op: Operand) {
    exists i: nat, j: nat :: i < j && RevisitsAt(aliases, op, i, j)
  }

  ghost predicate RevisitsAt(aliases: AliasMap, op: Operand, i: nat, j: nat) {
    Follow(aliases, op, i) == Follow(aliases, op, j) && HasAlias(aliases, Follow(aliases, op, i))
  }

  /** Once it has stopped the chain stays where it is. */
  lemma {:induction false} StaysStopped(aliases: AliasMap, op: Operand, n: nat, m: nat)
    requires n <= m && !HasAlias(aliases, Follow(aliases, op, n))
    ensures Follow(aliases, op, m) == Follow(aliases, op, n)
    decreases m - n
  {
    if n < m { StaysStopped(aliases, op, n, m - 1); }
  }

  /** Once it has come back it goes round for ever. */
  lemma {:induction false} GoesRound(aliases: AliasMap, op: Operand, i: nat, j: nat, n: nat)
    requires i < j && RevisitsAt(aliases, op, i, j)
    ensures HasAlias(aliases, Follow(aliases, op, n))
    decreases n
  {
    if n < j {
      if !HasAlias(aliases, Follow(aliases, op, n)) { StaysStopped(aliases, op, n, j); }
    } else {
      GoesRound(aliases, op, i, j, n - (j - i));
      OneRound(aliases, op, i, j, n - j);
    }
  }

  lemma {:induction false} OneRound(aliases: AliasMap, op: Operand, i: nat, j: nat, k: nat)
    requires Follow(aliases, op, i) == Follow(aliases, op, j)
    ensures Follow(aliases, op, i + k) == Follow(aliases, op, j + k)
  {
    if k > 0 { OneRound(aliases, op, i, j, k - 1); }
  }

  /** The values met in the first `n` steps. */
  ghost function Met(aliases: AliasMap, op: Operand, n: nat): set<ValueId> {
    set k | 0 <= k < n && Follow(aliases, op, k).Value? :: Follow(aliases, op, k).id
  }

  lemma {:induction false} MetGrows(aliases: AliasMap, op: Operand, n: nat)
    requires !Revisits(aliases, op) && forall k: nat :: k < n ==> HasAlias(aliases, Follow(aliases, op, k))
    ensures |Met(aliases, op, n)| == n
  {
    hide Follow, Revisits, Met;
    if n == 0 {
      MetNone(aliases, op);
    } else {
      MetGrows(aliases, op, n - 1);
      MetOneMore(aliases, op, n - 1);
      assert HasAlias(aliases, Follow(aliases, op, n - 1));
      NotMetBefore(aliases, op, n - 1);
    }
  }

  lemma MetNone(aliases: AliasMap, op: Operand)
    ensures Met(aliases, op, 0) == {}
  {}

  lemma MetOneMore(aliases: AliasMap, op: Operand, n: nat)
    ensures Met(aliases, op, n + 1)
      == Met(aliases, op, n) + if Follow(aliases, op, n).Value? then {Follow(aliases, op, n).id} else {}
  {
    hide Follow;
  }

  lemma NotMetBefore(aliases: AliasMap, op: Operand, n: nat)
    requires !Revisits(aliases, op) && HasAlias(aliases, Follow(aliases, op, n))
    ensures Follow(aliases, op, n).id !in Met(aliases, op, n)
  {
    hide Follow;
    forall k: nat | k < n ensures Follow(aliases, op, k) != Follow(aliases, op, n) {
      assert !RevisitsAt(aliases, op, k, n);
    }
  }

  /** An alias chain ends if and only if it comes back to no value that it goes on from. */
  lemma ChainEndsIff(aliases: AliasMap, op: Operand)
    ensures Ends(aliases, op) <==> !Revisits(aliases, op)
  {
    if Revisits(aliases, op) {
      var i: nat, j: nat :| i < j && RevisitsAt(aliases, op, i, j);
      forall n: nat ensures HasAlias(aliases, Follow(aliases, op, n)) { GoesRound(aliases, op, i, j, n); }
    } else if !Ends(aliases, op) {
      var n := |aliases.Keys| + 1;
      MetGrows(aliases, op, n);
      Sets.SubsetSize(Met(aliases, op, n), aliases.Keys);
    }
  }

  /** A value that is its own alias never resolves. */
  lemma SelfAliasNeverEnds(aliases: AliasMap, v: ValueId)
    requires v in aliases && aliases[v] == Value(v)
    ensures !Ends(aliases, Value(v))
  {
    assert Follow(aliases, Value(v), 0) == Value(v) && Follow(aliases, Value(v), 1) == Value(v);
    assert RevisitsAt(aliases, Value(v), 0, 1);
    ChainEndsIff(aliases, Value(v));
  }

  /** What an instruction's result becomes an alias of: the operand itself, or what it resolves
      to. Loads count when their type can hold a reference, sums when the operand carries loans. */
  datatype Source = Itself(op: Operand) | Resolved(op: Operand) | Neither

  function SourceOf(inst: Instruction, refLike: bool): Source {
    match inst
    case MakeTraitObject(dataPtr, _) => Resolved(dataPtr)
    case MakeSlice(dataPtr, _) => Resolved(dataPtr)
    case Load(ptr) => if refLike then Resolved(ptr) else Neither
    case Borrow(_, base) => Itself(base)
    case FieldPtr(base, _) => Resolved(base)
    case PtrOffset(ptr, _) => Resolved(ptr)
    case Assign(op) => Itself(op)
    case Cast(value) => Resolved(value)
    case _ => Neither
  }

  predicate IsSum(inst: Instruction) {
    inst.Binary? && (inst.bin == Add || inst.bin == Sub)
  }

  /** The operands an instruction may become an alias of. */
  predicate AliasOperand(inst: Instruction, op: Operand) {
    (!SourceOf(inst, true).Neither? && SourceOf(inst, true).op == op)
      || (IsSum(inst) && (inst.left == op || inst.right == op))
  }

  ghost predicate OperandsSmaller(func: Function) {
    forall v, op :: 0 <= v < |func.values| && AliasOperand(func.values[v], op) && op.Value? ==> op.id < v
  }

  /** Makes `id` an alias of what `op` resolves to. */
  method AliasResolved(aliases: AliasMap, id: ValueId, op: Operand) returns (aliases': AliasMap)
    requires Descending(aliases) && (op.Value? ==> op.id < id)
    ensures aliases' == WithResolved(aliases, id, op)
    ensures Descending(aliases')
  {
    if !op.Value? { return aliases; }
    var resolved := ResolveAlias(aliases, op);
    return aliases[id := if resolved.Value? then resolved else op];
  }

  ghost function WithResolved(aliases: AliasMap, id: ValueId, op: Operand): (aliases': AliasMap)
    requires Descending(aliases)
    ensures (op.Value? ==> op.id < id) ==> Descending(aliases')
  {
    if !op.Value? then aliases
    else aliases[id := if Resolve(aliases, op).Value? then Resolve(aliases, op) else op]
  }

  /** What may differ between visits of an instruction: whether its type can hold a reference,
      and which values carry loans. */
  datatype Visit = Visit(refLike: bool, carries: ValueId -> bool)

  /** A sum takes its operands in turn, and becomes an alias of those that resolve to a carrier. */
  ghost function WithSum(aliases: AliasMap, visit: Visit, id: ValueId, op: Operand): (aliases': AliasMap)
    requires Descending(aliases)
    ensures (op.Value? ==> op.id < id) ==> Descending(aliases')
  {
    if !op.Value? then aliases
    else
      var check := if Resolve(aliases, op).Value? then Resolve(aliases, op) else op;
      if visit.carries(check.id) then aliases[id := check] else aliases
  }

  ghost function Transferred(func: Function, aliases: AliasMap, id: ValueId, visit: Visit): AliasMap
    requires Descending(aliases) && OperandsSmaller(func) && id < |func.values|
  {
    var inst := func.values[id];
    if IsSum(inst) then
      assert AliasOperand(inst, inst.left) && AliasOperand(inst, inst.right);
      WithSum(WithSum(aliases, visit, id, inst.left), visit, id, inst.right)
    else
      match SourceOf(inst, visit.refLike)
      case Itself(op) => if op.Value? then aliases[id := op] else aliases
      case Resolved(op) => WithResolved(aliases, id, op)
      case Neither => aliases
  }

  method TransferAliases(func: Function, aliases: AliasMap, id: ValueId, visit: Visit) returns (aliases': AliasMap)
    requires Descending(aliases) && OperandsSmaller(func) && id < |func.values|
    ensures aliases' == Transferred(func, aliases, id, visit)
  {
    var inst := func.values[id];
    if IsSum(inst) {
      assert AliasOperand(inst, inst.left) && AliasOperand(inst, inst.right);
      aliases' := AliasSum(aliases, visit, id, inst.left);
      aliases' := AliasSum(aliases', visit, id, inst.right);
      return;
    }
    var source := SourceOf(inst, visit.refLike);
    match source
    case Itself(op) => aliases' := if op.Value? then aliases[id := op] else aliases;
    case Resolved(op) =>
      assert AliasOperand(inst, op);
      aliases' := AliasResolved(aliases, id, op);
    case Neither => aliases' := aliases;
  }

  method AliasSum(aliases: AliasMap, visit: Visit, id: ValueId, op: Operand) returns (aliases': AliasMap)
    requires Descending(aliases) && (op.Value? ==> op.id < id)
    ensures aliases' == WithSum(aliases, visit, id, op)
  {
    if !op.Value? { return aliases; }
    var resolved := ResolveAlias(aliases, op);
    var check := if resolved.Value? then resolved else op;
    return if visit.carries(check.id) then aliases[id := check] else aliases;
  }

  /** Aliases of locals whose lifetime ends along an edge are forgotten. */
  function Crossed(aliases: AliasMap, ending: set<ValueId>): AliasMap {
    map v | v in aliases && v !in ending :: aliases[v]
  }

  /** The last writer wins. */
  function Merged(dest: AliasMap, src: AliasMap): AliasMap {
    dest + src
  }

  method MergeAliases(dest: AliasMap, src: AliasMap) returns (merged: AliasMap, changed: bool)
    ensures merged == Merged(dest, src) && (changed <==> merged != dest)
  {
    merged, changed := dest, false;
    var todo := src.Keys;
    ghost var doneKeys: set<ValueId> := {};
    while todo != {}
      invariant todo + doneKeys == src.Keys && todo !! doneKeys
      invariant merged == dest + (map v | v in src && v in doneKeys :: src[v])
      invariant changed <==> exists v :: v in doneKeys && !(v in dest && dest[v] == src[v])
      decreases todo
    {
      var v :| v in todo;
      todo, doneKeys := todo - {v}, doneKeys + {v};
      if !(v in merged && merged[v] == src[v]) { changed := true; }
      merged := merged[v := src[v]];
    }
    assert (map v | v in src && v in doneKeys :: src[v]) == src;
    if exists v :: v in doneKeys && !(v in dest && dest[v] == src[v]) {
      var v :| v in doneKeys && !(v in dest && dest[v] == src[v]);
      assert merged[v] == src[v];
    }
  }

  /** Any way of coming to an alias map: transfers, edges and merges, in any order. */
  datatype History =
    | Start
    | Transfer(before: History, id: ValueId, visit: Visit)
    | Cross(before: History, ending: set<ValueId>)
    | Merge(dest: History, src: History)

  ghost predicate InFunction(func: Function, h: History) {
    match h
    case Start => true
    case Transfer(before, id, _) => id < |func.values| && InFunction(func, before)
    case Cross(before, _) => InFunction(func, before)
    case Merge(dest, src) => InFunction(func, dest) && InFunction(func, src)
  }

  /** In every history aliases descend, so that every chain ends: at a value that has no alias. */
  ghost function AliasesAfter(func: Function, h: History): (aliases: AliasMap)
    requires OperandsSmaller(func) && InFunction(func, h)
    ensures Descending(aliases)
  {
    match h
    case Start => map[]
    case Transfer(before, id, visit) =>
      TransferKeepsDescending(func, AliasesAfter(func, before), id, visit);
      Transferred(func, AliasesAfter(func, before), id, visit)
    case Cross(before, ending) => Crossed(AliasesAfter(func, before), ending)
    case Merge(dest, src) => Merged(AliasesAfter(func, dest), AliasesAfter(func, src))
  }

  lemma TransferKeepsDescending(func: Function, aliases: AliasMap, id: ValueId, visit: Visit)
    requires Descending(aliases) && OperandsSmaller(func) && id < |func.values|
    ensures Descending(Transferred(func, aliases, id, visit))
  {
    var inst := func.values[id];
    if IsSum(inst) {
      assert AliasOperand(inst, inst.left) && AliasOperand(inst, inst.right);
    } else {
      var source := SourceOf(inst, visit.refLike);
      if !source.Neither? { assert AliasOperand(inst, source.op); }
    }
  }

  /** A chain of smaller values does not pass a later alias. */
  lemma {:induction false} ResolveBelow(aliases: AliasMap, id: ValueId, alias: Operand, op: Operand)
    requires Descending(aliases) && Descending(aliases[id := alias]) && (op.Value? ==> op.id < id)
    ensures Resolve(aliases[id := alias], op) == Resolve(aliases, op)
    decreases if op.Value? then op.id + 1 else 0
  {
    if op.Value? && op.id in aliases { ResolveBelow(aliases, id, alias, aliases[op.id]); }
  }

  /** The value that a chain ends at, or its start when it ends elsewhere. */
  ghost function EndValue(aliases: AliasMap, op: Operand): (end: Operand)
    requires Descending(aliases) && op.Value?
    ensures end.Value? && end.id <= op.id
  {
    if Resolve(aliases, op).Value? then Resolve(aliases, op) else op
  }

  lemma AliasResolves(aliases: AliasMap, id: ValueId, op: Operand, alias: Operand)
    requires Descending(aliases) && op.Value? && op.id < id && alias in {op, EndValue(aliases, op)}
    ensures Descending(aliases[id := alias]) && Resolve(aliases[id := alias], Value(id)) == Resolve(aliases, op)
  {
    ResolveBelow(aliases, id, alias, alias);
  }

  /** The result names what the operand names, or a part of it. */
  ghost predicate NamesBase(inst: Instruction, refLike: bool, op: Operand) {
    || (inst.Borrow? && op == inst.base)
    || (inst.FieldPtr? && op == inst.base)
    || (inst.PtrOffset? && op == inst.ptr)
    || (inst.MakeTraitObject? && op == inst.dataPtr)
    || (inst.MakeSlice? && op == inst.dataPtr)
    || (inst.Cast? && op == inst.value)
    || (inst.Assign? && op == inst.op)
    || (inst.Load? && refLike && op == inst.ptr)
  }

  ghost predicate IsSummand(inst: Instruction, op: Operand) {
    inst.Binary? && inst.bin in {Add, Sub} && (op == inst.left || op == inst.right)
  }

  ghost predicate Carrying(aliases: AliasMap, visit: Visit, op: Operand)
    requires Descending(aliases)
  {
    op.Value? && visit.carries(EndValue(aliases, op).id)
  }

  /** The result resolves as the operand does that it names. */
  lemma AliasNamesBase(func: Function, aliases: AliasMap, id: ValueId, visit: Visit, op: Operand)
    requires Descending(aliases) && OperandsSmaller(func) && id < |func.values|
    requires op.Value? && NamesBase(func.values[id], visit.refLike, op)
    ensures var after := Transferred(func, aliases, id, visit);
            Descending(after) && Resolve(after, Value(id)) == Resolve(aliases, op)
  {
    hide Resolve;
    assert AliasOperand(func.values[id], op);
    AliasResolves(aliases, id, op, op);
    AliasResolves(aliases, id, op, EndValue(aliases, op));
  }

  /** A sum resolves as its last operand does that carries loans. */
  lemma AliasNamesSummand(func: Function, aliases: AliasMap, id: ValueId, visit: Visit, op: Operand)
    requires Descending(aliases) && OperandsSmaller(func) && id < |func.values|
    requires IsSummand(func.values[id], op) && Carrying(aliases, visit, op)
    requires op == func.values[id].right || !Carrying(aliases, visit, func.values[id].right)
    ensures var after := Transferred(func, aliases, id, visit);
            Descending(after) && Resolve(after, Value(id)) == Resolve(aliases, op)
  {
    hide Resolve;
    var inst := func.values[id];
    assert AliasOperand(inst, inst.left) && AliasOperand(inst, inst.right);
    AliasResolves(aliases, id, op, EndValue(aliases, op));
    if inst.left.Value? {
      AliasResolves(aliases, id, inst.left, EndValue(aliases, inst.left));
      var mid := aliases[id := EndValue(aliases, inst.left)];
      ResolveBelow(aliases, id, EndValue(aliases, inst.left), inst.right);
      assert mid[id := EndValue(aliases, op)] == aliases[id := EndValue(aliases, op)];
      assert WithSum(aliases, visit, id, inst.left) == if Carrying(aliases, visit, inst.left) then mid else aliases;
    }
  }

  /** Nothing is aliased without reason, and smaller values resolve as before. */
  lemma AliasOnlyBase(func: Function, aliases: AliasMap, id: ValueId, visit: Visit)
    requires Descending(aliases) && OperandsSmaller(func) && id < |func.values|
    ensures var inst, after := func.values[id], Transferred(func, aliases, id, visit);
      && Descending(after)
      && (forall v: ValueId :: v < id ==> Resolve(after, Value(v)) == Resolve(aliases, Value(v)))
      && ((forall op: Operand :: !(op.Value? && NamesBase(inst, visit.refLike, op))
            && !(IsSummand(inst, op) && Carrying(aliases, visit, op))) ==> after == aliases)
  {
    hide Resolve;
    var inst, after := func.values[id], Transferred(func, aliases, id, visit);
    TransferKeepsDescending(func, aliases, id, visit);
    assert IsSum(inst) ==> AliasOperand(inst, inst.left) && AliasOperand(inst, inst.right);
    if id in after && after == aliases[id := after[id]] {
      forall v: ValueId | v < id ensures Resolve(after, Value(v)) == Resolve(aliases, Value(v)) {
        ResolveBelow(aliases, id, after[id], Value(v));
      }
    }
    if !SourceOf(inst, visit.refLike).Neither? { SourceNamed(inst, visit.refLike); }
    if IsSum(inst) { assert IsSummand(inst, inst.left) && IsSummand(inst, inst.right); }
  }

  lemma SourceNamed(inst: Instruction, refLike: bool)
    requires !SourceOf(inst, refLike).Neither?
    ensures NamesBase(inst, refLike, SourceOf(inst, refLike).op)
  {}

  // ----- active loans --------------------------------------------------------------------

  datatype Loan = Loan(id: ValueId, place: Operand, isRw: bool)

  type Provenance = map<ValueId, set<Loan>>

  datatype Loans = Loans(direct: Provenance, carried: Provenance, escaped: set<Loan>, aliases: AliasMap)

  function Held(p: Provenance, v: ValueId): set<Loan> {
    if v in p then p[v] else {}
  }

  /** The loans `v` carries. */
  function CarriedBy(st: Loans, v: ValueId): set<Loan> {
    Held(st.direct, v) + Held(st.carried, v)
  }

  /** `v` carries a loan of a place that resolves to `u`. */
  ghost predicate LeadsTo(st: Loans, v: ValueId, u: ValueId)
    requires Descending(st.aliases)
  {
    exists loan :: loan in CarriedBy(st, v) && Resolve(st.aliases, loan.place) == Value(u)
  }

  /** From a live value, through places of carried loans. */
  ghost predicate IsLoanWalk(st: Loans, live: set<ValueId>, walk: seq<ValueId>)
    requires Descending(st.aliases)
  {
    && |walk| > 0 && walk[0] in live
    && forall i :: 0 <= i < |walk| - 1 ==> LeadsTo(st, walk[i], walk[i + 1])
  }

  ghost predicate Carrier(st: Loans, live: set<ValueId>, v: ValueId)
    requires Descending(st.aliases)
  {
    exists walk :: IsLoanWalk(st, live, walk) && walk[|walk| - 1] == v
  }

  /** Escaped loans, and loans carried by a live value or reached from one. */
  ghost predicate IsActive(st: Loans, live: set<ValueId>, loan: Loan)
    requires Descending(st.aliases)
  {
    loan in st.escaped || exists v :: Carrier(st, live, v) && loan in CarriedBy(st, v)
  }

  lemma CarrierStep(st: Loans, live: set<ValueId>, v: ValueId, u: ValueId)
    requires Descending(st.aliases) && Carrier(st, live, v) && LeadsTo(st, v, u)
    ensures Carrier(st, live, u)
  {
    var walk :| IsLoanWalk(st, live, walk) && walk[|walk| - 1] == v;
    assert IsLoanWalk(st, live, walk + [u]);
  }

  /** A set that contains the live values and all that its members lead to contains all carriers. */
  lemma {:induction false} ClosedHasCarriers(st: Loans, live: set<ValueId>, visited: set<ValueId>, walk: seq<ValueId>)
    requires Descending(st.aliases) && live <= visited
    requires forall v, u :: v in visited && LeadsTo(st, v, u) ==> u in visited
    requires IsLoanWalk(st, live, walk)
    ensures walk[|walk| - 1] in visited
    decreases |walk|
  {
    if |walk| > 1 {
      var init := walk[..|walk| - 1];
      assert IsLoanWalk(st, live, init);
      ClosedHasCarriers(st, live, visited, init);
      assert LeadsTo(st, walk[|walk| - 2], walk[|walk| - 1]);
    }
  }

  /** Some loan of `loans` is of a place that resolves to `u`. */
  ghost predicate Targets(st: Loans, loans: set<Loan>, u: ValueId)
    requires Descending(st.aliases)
  {
    exists loan :: loan in loans && Resolve(st.aliases, loan.place) == Value(u)
  }

  lemma LeadsToTargets(st: Loans, v: ValueId)
    requires Descending(st.aliases)
    ensures forall u :: LeadsTo(st, v, u) <==> Targets(st, CarriedBy(st, v), u)
  {}

  lemma TargetsUnion(st: Loans, a: set<Loan>, b: set<Loan>)
    requires Descending(st.aliases)
    ensures forall u :: Targets(st, a + b, u) <==> Targets(st, a, u) || Targets(st, b, u)
  {
    forall u ensures Targets(st, a + b, u) <==> Targets(st, a, u) || Targets(st, b, u) {
      if Targets(st, a, u) {
        var loan :| loan in a && Resolve(st.aliases, loan.place) == Value(u);
        assert loan in a + b;
      }
      if Targets(st, b, u) {
        var loan :| loan in b && Resolve(st.aliases, loan.place) == Value(u);
        assert loan in a + b;
      }
    }
  }

  /** Collects loans and queues the values their places resolve to. */
  method Collect(st: Loans, loans: set<Loan>, active0: set<Loan>, queue0: seq<ValueId>)
    returns (active: set<Loan>, queue: seq<ValueId>)
    requires Descending(st.aliases)
    ensures active == active0 + loans
    ensures forall u :: u in queue <==> u in queue0 || Targets(st, loans, u)
  {
    active, queue := active0, queue0;
    var todo := loans;
    while todo != {}
      invariant todo <= loans && active == active0 + (loans - todo)
      invariant forall u :: u in queue <==> u in queue0 || Targets(st, loans - todo, u)
      decreases todo
    {
      var loan :| loan in todo;
      ghost var before := loans - todo;
      todo := todo - {loan};
      assert loans - todo == before + {loan};
      TargetsUnion(st, before, {loan});
      active := active + {loan};
      var resolved := ResolveAlias(st.aliases, loan.place);
      OneTarget(st, loan);
      if resolved.Value? { queue := queue + [resolved.id]; }
    }
    assert loans - todo == loans;
  }

  lemma OneTarget(st: Loans, loan: Loan)
    requires Descending(st.aliases)
    ensures forall u :: Targets(st, {loan}, u) <==> Resolve(st.aliases, loan.place) == Value(u)
  {
    assert loan in {loan};
  }

  /** Everything the search can come to. */
  ghost function Reachable(st: Loans, live: set<ValueId>): set<ValueId>
    requires Descending(st.aliases)
  {
    live + (set v, loan | v in st.direct.Keys + st.carried.Keys && loan in CarriedBy(st, v)
              && Resolve(st.aliases, loan.place).Value? :: Resolve(st.aliases, loan.place).id)
  }

  lemma TargetIsReachable(st: Loans, live: set<ValueId>, v: ValueId, u: ValueId)
    requires Descending(st.aliases) && LeadsTo(st, v, u)
    ensures u in Reachable(st, live)
  {}

  /** The state of the search: visited values and queued ones are carriers, and what is missing
      from the visited ones is queued. */
  ghost predicate Searching(
      st: Loans, live: set<ValueId>, visited: set<ValueId>, queue: seq<ValueId>, active: set<Loan>)
    requires Descending(st.aliases)
  {
    && (forall v :: v in visited || v in queue ==> Carrier(st, live, v) && v in Reachable(st, live))
    && (forall v :: v in live ==> v in visited || v in queue)
    && (forall v, u :: v in visited && LeadsTo(st, v, u) ==> u in visited || u in queue)
    && st.escaped <= active
    && (forall v, loan :: v in visited && loan in CarriedBy(st, v) ==> loan in active)
    && (forall loan :: loan in active ==> IsActive(st, live, loan))
  }

  lemma VisitOne(
      st: Loans, live: set<ValueId>, visited: set<ValueId>, queue: seq<ValueId>, active: set<Loan>, v: ValueId,
      queue': seq<ValueId>)
    requires Descending(st.aliases) && Searching(st, live, visited, queue + [v], active)
    requires forall u :: u in queue' <==> u in queue || LeadsTo(st, v, u)
    ensures Searching(st, live, visited + {v}, queue', active + CarriedBy(st, v))
  {
    hide LeadsTo, Carrier, IsActive, CarriedBy, Reachable;
    assert v in queue + [v];
    assert forall u :: u in queue + [v] <==> u in queue || u == v;
    forall u | LeadsTo(st, v, u) ensures Carrier(st, live, u) && u in Reachable(st, live) {
      CarrierStep(st, live, v, u);
      TargetIsReachable(st, live, v, u);
    }
    forall loan | loan in CarriedBy(st, v) ensures IsActive(st, live, loan) {
      CarriedIsActive(st, live, v, loan);
    }
  }

  lemma CarriedIsActive(st: Loans, live: set<ValueId>, v: ValueId, loan: Loan)
    requires Descending(st.aliases) && Carrier(st, live, v) && loan in CarriedBy(st, v)
    ensures IsActive(st, live, loan)
  {}

  lemma SkipOne(
      st: Loans, live: set<ValueId>, visited: set<ValueId>, queue: seq<ValueId>, active: set<Loan>, v: ValueId)
    requires Descending(st.aliases) && Searching(st, live, visited, queue + [v], active) && v in visited
    ensures Searching(st, live, visited, queue, active)
  {
    hide LeadsTo, Carrier, IsActive, CarriedBy, Reachable;
    assert forall u :: u in queue + [v] <==> u in queue || u == v;
  }

  lemma SearchDone(st: Loans, live: set<ValueId>, visited: set<ValueId>, active: set<Loan>, loan: Loan)
    requires Descending(st.aliases) && Searching(st, live, visited, [], active)
    ensures loan in active <==> IsActive(st, live, loan)
  {
    hide LeadsTo, CarriedBy, Reachable;
    if IsActive(st, live, loan) && loan !in st.escaped {
      var v :| Carrier(st, live, v) && loan in CarriedBy(st, v);
      var walk :| IsLoanWalk(st, live, walk) && walk[|walk| - 1] == v;
      ClosedHasCarriers(st, live, visited, walk);
    }
  }

  lemma SearchStarts(st: Loans, live: set<ValueId>, queue: seq<ValueId>)
    requires Descending(st.aliases) && forall v :: v in queue <==> v in live
    ensures Searching(st, live, {}, queue, st.escaped)
  {
    forall v | v in live ensures Carrier(st, live, v) {
      assert IsLoanWalk(st, live, [v]);
    }
  }

  /** Exactly the escaped loans, and the loans that live carriers lead to. */
  method ActiveLoans(st: Loans, live: Option<set<ValueId>>) returns (active: set<Loan>)
    requires Descending(st.aliases)
    ensures forall loan :: loan in active <==> IsActive(st, if live.Some? then live.value else {}, loan)
  {
    hide LeadsTo, Carrier, IsActive, CarriedBy, Searching, Targets, Reachable;
    active := st.escaped;
    var queue: seq<ValueId> := [];
    ghost var start := if live.Some? then live.value else {};
    if live.Some? {
      queue := ListOf(live.value);
    }
    var visited: set<ValueId> := {};
    SearchStarts(st, start, queue);
    while queue != []
      invariant Searching(st, start, visited, queue, active)
      decreases Reachable(st, start) - visited, |queue|
    {
      var v := queue[|queue| - 1];
      ghost var before := queue;
      queue := queue[..|queue| - 1];
      assert before == queue + [v];
      QueuedIsReachable(st, start, visited, queue, active, v);
      if v !in visited {
        ghost var rest, found := queue, active;
        visited := visited + {v};
        var direct, carried := Held(st.direct, v), Held(st.carried, v);
        active, queue := Collect(st, direct, active, queue);
        active, queue := Collect(st, carried, active, queue);
        BothCarried(st, v, direct, carried);
        assert active == found + CarriedBy(st, v);
        VisitOne(st, start, visited - {v}, rest, found, v, queue);
        assert visited - {v} + {v} == visited;
      } else {
        SkipOne(st, start, visited, queue, active, v);
      }
    }
    forall loan ensures loan in active <==> IsActive(st, start, loan) {
      SearchDone(st, start, visited, active, loan);
    }
  }

  lemma QueuedIsReachable(
      st: Loans, live: set<ValueId>, visited: set<ValueId>, queue: seq<ValueId>, active: set<Loan>, v: ValueId)
    requires Descending(st.aliases) && Searching(st, live, visited, queue + [v], active)
    ensures v in Reachable(st, live)
  {
    hide Carrier, Reachable, LeadsTo, IsActive, CarriedBy;
    assert v in queue + [v];
  }

  lemma BothCarried(st: Loans, v: ValueId, direct: set<Loan>, carried: set<Loan>)
    requires Descending(st.aliases) && direct == Held(st.direct, v) && carried == Held(st.carried, v)
    ensures CarriedBy(st, v) == direct + carried
    ensures forall u :: LeadsTo(st, v, u) <==> Targets(st, direct, u) || Targets(st, carried, u)
  {
    hide Targets, LeadsTo, Held;
    LeadsToTargets(st, v);
    TargetsUnion(st, direct, carried);
  }

  method ListOf(values: set<ValueId>) returns (list: seq<ValueId>)
    ensures forall v :: v in list <==> v in values
  {
    list := [];
    var todo := values;
    while todo != {}
      invariant todo <= values && forall v :: v in list <==> v in values - todo
      decreases todo
    {
      var v :| v in todo;
      todo, list := todo - {v}, list + [v];
    }
  }
}
