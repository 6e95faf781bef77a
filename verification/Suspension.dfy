/** Which places a suspended async function still owns at each await. */
module Suspension {
  import opened Wrappers
  import opened Mvir
  import opened Places
  import opened MoveState
  import opened MoveTransfer
  import opened ForwardDataflow
  import opened MoveSoundness
  import opened MoveTermination
  import opened MoveChecker
  import BorrowCheckMoves

  datatype SuspensionState = SuspensionState(initialized: set<Place>, moved: set<Place>, live: set<Place>)

  predicate KeptRaw(m: PlaceMap, p: Place) {
    p in m && (m[p].Live? || m[p].ConditionallyMoved?)
  }

  /** `p` is kept and no proper ancestor of it is. */
  ghost predicate Kept(m: PlaceMap, p: Place) {
    KeptRaw(m, p) && forall q :: KeptRaw(m, q) && q != p ==> !Ancestor(q, p)
  }

  /** What a suspension records of a table. */
  ghost predicate Describes(s: SuspensionState, m: PlaceMap) {
    && (forall p :: p in s.initialized <==> p in m && (KeptRaw(m, p) || m[p].PartialMoved?))
    && (forall p :: p in s.moved <==> p in m && (m[p].Moved? || m[p].Dropped?))
    && (forall p :: p in s.live <==> Kept(m, p))
  }

  /** The only description of the table. */
  method ExtractLivePlaces(m: PlaceMap) returns (s: SuspensionState)
    ensures Describes(s, m) && forall t :: Describes(t, m) ==> t == s
  {
    var initialized: set<Place>, moved: set<Place>, liveRaw: set<Place> := {}, {}, {};
    var keys := m.Keys;
    while keys != {}
      invariant keys <= m.Keys
      invariant forall p :: p in initialized <==> p in m && p !in keys && (KeptRaw(m, p) || m[p].PartialMoved?)
      invariant forall p :: p in moved <==> p in m && p !in keys && (m[p].Moved? || m[p].Dropped?)
      invariant forall p :: p in liveRaw <==> p !in keys && KeptRaw(m, p)
      decreases keys
    {
      var p :| p in keys;
      keys := keys - {p};
      match m[p] {
        case Live => liveRaw, initialized := liveRaw + {p}, initialized + {p};
        case PartialMoved => initialized := initialized + {p};
        case ConditionallyMoved => liveRaw, initialized := liveRaw + {p}, initialized + {p};
        case Moved => moved := moved + {p};
        case Dropped => moved := moved + {p};
        case Uninitialized =>
      }
    }
    var live: set<Place> := {};
    var rest := liveRaw;
    while rest != {}
      invariant rest <= liveRaw
      invariant forall p :: p in live <==> p in liveRaw && p !in rest && Kept(m, p)
      decreases rest
    {
      var p :| p in rest;
      rest := rest - {p};
      if !exists other | other in liveRaw :: other != p && Ancestor(other, p) {
        live := live + {p};
      }
    }
    s := SuspensionState(initialized, moved, live);
    DescriptionIsUnique(s, m);
  }

  lemma DescriptionIsUnique(s: SuspensionState, m: PlaceMap)
    requires Describes(s, m)
    ensures forall t :: Describes(t, m) ==> t == s
  {
    forall t | Describes(t, m) ensures t == s {
      assert forall p :: p in s.initialized <==> p in t.initialized;
      assert forall p :: p in s.moved <==> p in t.moved;
      assert forall p :: p in s.live <==> p in t.live;
    }
  }

  /** No place is dropped twice: the live set holds no place together with its ancestor. */
  lemma LiveIsAntichain(s: SuspensionState, m: PlaceMap, p: Place, q: Place)
    requires Describes(s, m) && p in s.live && q in s.live && Ancestor(p, q)
    ensures p == q
  {}

  /** No place is forgotten: every kept entry lies at or below a member of the live set. */
  lemma {:induction false} LiveCovers(s: SuspensionState, m: PlaceMap, p: Place) returns (q: Place)
    requires Describes(s, m) && KeptRaw(m, p)
    ensures q in s.live && Ancestor(q, p)
    decreases |p.projections|
  {
    if Kept(m, p) {
      q := p;
    } else {
      var r :| KeptRaw(m, r) && r != p && Ancestor(r, p);
      assert |r.projections| < |p.projections|;
      q := LiveCovers(s, m, r);
      AncestorTrans(q, r, p);
    }
  }

  /** Some recorded place is at or above `p`: dropping what is recorded drops `p`. */
  ghost predicate Covers(s: SuspensionState, p: Place) {
    exists q :: q in s.live && Ancestor(q, p)
  }

  /** `p` is dropped with what is recorded, whatever its own state is, if and only if an entry at or
      above it is kept. */
  lemma CoveredIffKept(s: SuspensionState, m: PlaceMap, p: Place)
    requires Describes(s, m)
    ensures Covers(s, p) <==> exists q :: KeptRaw(m, q) && Ancestor(q, p)
  {
    hide Describes;
    if Covers(s, p) {
      var q :| q in s.live && Ancestor(q, p);
      LiveIsKept(s, m, q);
    }
    if q :| KeptRaw(m, q) && Ancestor(q, p) {
      var r := LiveCovers(s, m, q);
      AncestorTrans(r, q, p);
    }
  }

  lemma LiveIsKept(s: SuspensionState, m: PlaceMap, q: Place)
    requires Describes(s, m) && q in s.live
    ensures KeptRaw(m, q)
  {}

  /** The entry that decides the state of `p`. */
  lemma {:induction false} DecidedBy(m: PlaceMap, p: Place) returns (k: Place)
    requires exists j :: j in m && Ancestor(j, p)
    ensures k in m && Ancestor(k, p) && m[k] == Inherited(m, p)
    decreases |p.projections|
  {
    if p in m {
      k := p;
    } else {
      var j :| j in m && Ancestor(j, p);
      assert p.projections != [];
      AncestorParent(j, p);
      k := DecidedBy(m, Parent(p));
      AncestorParent(k, p);
    }
  }

  /** A place on record that passes its check where the function suspends is always dropped with
      what is recorded. */
  lemma UsableIsCovered(s: SuspensionState, m: PlaceMap, p: Place)
    requires Describes(s, m) && Effective(m, p) == Live && exists j :: j in m && Ancestor(j, p)
    ensures Covers(s, p)
  {
    hide Describes;
    var k := DecidedBy(m, p);
    assert KeptRaw(m, k);
    CoveredIffKept(s, m, p);
  }

  /** A place that is gone where the function suspends is dropped with the future only if it
      is conditionally moved there: the live set does not tell such a place from a live one. */
  lemma GoneKeptIffConditional(s: SuspensionState, m: PlaceMap, p: Place)
    requires Describes(s, m) && Gone(m, p) && p in m
    requires forall q :: q in m && Ancestor(q, p) ==> q == p
    ensures p in s.live <==> m[p] == ConditionallyMoved
  {
    assert Decides(m, p, p);
    InheritedIs(m, p, p);
  }

  /** A place that some walk to the await has moved and not revived is in the await's live set
      only as a conditionally moved one, and is dropped with it if and only if an entry at or
      above it is kept. */
  lemma MovedPlaceAtAwait(
      env: Env, order: KeyOrder, states: map<Label, State>, reached: set<Label>,
      path: seq<Label>, block: BasicBlock, j: nat, p: Place, i: nat, s: SuspensionState)
    requires OrdersKeys(order)
    requires ForwardFixpoint(env.func, MoveAnalysis(env, order), states, reached)
    requires IsPath(env.func, path) && path[0] in reached
    requires block in env.func.blocks && block.name == path[|path| - 1] && j < |block.insts|
    requires i < |TraceTo(env, path, block, j, 0)| && Kills(TraceTo(env, path, block, j, 0)[i], p)
    requires forall t :: i < t < |TraceTo(env, path, block, j, 0)| ==> !Revives(TraceTo(env, path, block, j, 0)[t], p)
    requires block.name in states && Describes(s, TableBefore(env, block, states[block.name].places, j))
    ensures var m := TableBefore(env, block, states[block.name].places, j);
            && Gone(m, p) && (p in s.live ==> m[p] == ConditionallyMoved)
            && (Covers(s, p) <==> exists q :: KeptRaw(m, q) && Ancestor(q, p))
  {
    var m := TableBefore(env, block, states[block.name].places, j);
    NoUseAfterMoveMissed(env, order, states, reached, path, block, j, 0, p, i);
    assert InstActions(env, block.insts[j])[..0] == [];
    assert TableAt(env, block, states[block.name].places, j, 0) == m;
    CoveredIffKept(s, m, p);
  }

  // ----- the states at the awaits --------------------------------------------------------

  predicate IsAwait(func: Function, v: ValueId) {
    v < |func.values| && func.values[v].Await?
  }

  /** The table just before instruction `j` of `block`. */
  function TableBefore(env: Env, block: BasicBlock, m: PlaceMap, j: nat): PlaceMap
    requires j <= |block.insts|
  {
    ApplyAll(env, InstsActions(env, block.insts[..j]), m)
  }

  /** The awaits met so far have the state of the table before them, and no others do. */
  ghost predicate AwaitsUpTo(
      env: Env, states: map<Label, State>, awaits: map<ValueId, SuspensionState>, b: nat, j: nat)
    requires states.Keys == Labels(env.func)
  {
    && (forall b', j' :: 0 <= b' < |env.func.blocks| && 0 <= j' < |env.func.blocks[b'].insts|
          && (b' < b || (b' == b && j' < j)) && IsAwait(env.func, env.func.blocks[b'].insts[j'])
          ==> AwaitRecorded(env, states, awaits, b', j'))
    && (forall v :: v in awaits ==> IsAwait(env.func, v))
  }

  ghost predicate AwaitRecorded(
      env: Env, states: map<Label, State>, awaits: map<ValueId, SuspensionState>, b: nat, j: nat)
    requires states.Keys == Labels(env.func)
    requires b < |env.func.blocks| && j < |env.func.blocks[b].insts|
  {
    var block := env.func.blocks[b];
    block.insts[j] in awaits
    && Describes(awaits[block.insts[j]], TableBefore(env, block, states[block.name].places, j))
  }

  method ScanBlock(
      analyzer: MoveAnalyzer, states: map<Label, State>, awaits0: map<ValueId, SuspensionState>, b: nat)
    returns (awaits: map<ValueId, SuspensionState>)
    requires analyzer.Valid()
    requires WellFormed(analyzer.env.func) && ListedOnce(analyzer.env.func)
    requires states.Keys == Labels(analyzer.env.func) && b < |analyzer.env.func.blocks|
    requires AwaitsUpTo(analyzer.env, states, awaits0, b, 0)
    modifies analyzer
    ensures analyzer.Valid()
    ensures AwaitsUpTo(analyzer.env, states, awaits, b + 1, 0)
  {
    var env := analyzer.env;
    var block := env.func.blocks[b];
    awaits := awaits0;
    var current := new MoveStateData(states[block.name]);
    assert block.insts[..0] == [];
    for j := 0 to |block.insts|
      invariant analyzer.Valid() && fresh(current)
      invariant current.places == TableBefore(env, block, states[block.name].places, j)
      invariant AwaitsUpTo(env, states, awaits, b, j)
    {
      var v := block.insts[j];
      assert v in block.insts;
      if IsAwait(env.func, v) {
        var s := ExtractLivePlaces(current.places);
        RecordAwait(env, states, awaits, b, j, s);
        awaits := awaits[v := s];
      }
      ghost var before := analyzer.Seen(current);
      analyzer.TransferInstruction(v, current);
      PerformAllApplies(env, analyzer.emitDiagnostics, v, InstActions(env, v), before);
      BorrowCheckMoves.InstsActionsSnoc(env, block.insts, j);
      ApplyAllConcat(env, InstsActions(env, block.insts[..j]), InstActions(env, v), states[block.name].places);
    }
  }

  lemma RecordAwait(
      env: Env, states: map<Label, State>, awaits: map<ValueId, SuspensionState>, b: nat, j: nat, s: SuspensionState)
    requires ListedOnce(env.func) && states.Keys == Labels(env.func)
    requires b < |env.func.blocks| && j < |env.func.blocks[b].insts|
    requires IsAwait(env.func, env.func.blocks[b].insts[j])
    requires AwaitsUpTo(env, states, awaits, b, j)
    requires Describes(s, TableBefore(env, env.func.blocks[b], states[env.func.blocks[b].name].places, j))
    ensures AwaitsUpTo(env, states, awaits[env.func.blocks[b].insts[j] := s], b, j + 1)
  {
    var awaits' := awaits[env.func.blocks[b].insts[j] := s];
    forall b', j' | 0 <= b' < |env.func.blocks| && 0 <= j' < |env.func.blocks[b'].insts|
        && (b' < b || (b' == b && j' < j + 1)) && IsAwait(env.func, env.func.blocks[b'].insts[j'])
      ensures AwaitRecorded(env, states, awaits', b', j')
    {
      if !(b' == b && j' == j) {
        assert AwaitRecorded(env, states, awaits, b', j');
        assert env.func.blocks[b'].insts[j'] != env.func.blocks[b].insts[j];
      }
    }
  }

  // ----- the state before the first poll -------------------------------------------------

  predicate IsAlloca(func: Function, v: ValueId) {
    v < |func.values| && func.values[v].Alloca?
  }

  /** How many slots the instructions begin with. */
  function LeadingAllocas(func: Function, insts: seq<ValueId>): (n: nat)
    ensures n <= |insts| && (n < |insts| ==> !IsAlloca(func, insts[n]))
    ensures forall i :: 0 <= i < n ==> IsAlloca(func, insts[i])
  {
    if insts == [] || !IsAlloca(func, insts[0]) then 0 else 1 + LeadingAllocas(func, insts[1..])
  }

  /** State 0 has the description of the table behind the slots the first block begins with. */
  ghost predicate InitialDescribed(env: Env, states: map<Label, State>, initial: SuspensionState)
    requires states.Keys == Labels(env.func)
  {
    if env.func.blocks == [] then initial == SuspensionState({}, {}, {})
    else
      var entry := env.func.blocks[0];
      Describes(initial, TableBefore(env, entry, states[entry.name].places, LeadingAllocas(env.func, entry.insts)))
  }

  method DescribeInitial(analyzer: MoveAnalyzer, states: map<Label, State>) returns (initial: SuspensionState)
    requires analyzer.Valid() && WellFormed(analyzer.env.func) && states.Keys == Labels(analyzer.env.func)
    modifies analyzer
    ensures analyzer.Valid() && InitialDescribed(analyzer.env, states, initial)
  {
    var env := analyzer.env;
    if env.func.blocks == [] { return SuspensionState({}, {}, {}); }
    var entry := env.func.blocks[0];
    var current := new MoveStateData(states[entry.name]);
    var j := 0;
    ghost var n := LeadingAllocas(env.func, entry.insts);
    assert entry.insts[..0] == [];
    while j < |entry.insts| && IsAlloca(env.func, entry.insts[j])
      invariant analyzer.Valid() && fresh(current) && j <= n
      invariant current.places == TableBefore(env, entry, states[entry.name].places, j)
      decreases |entry.insts| - j
    {
      var v := entry.insts[j];
      ghost var before := analyzer.Seen(current);
      analyzer.TransferInstruction(v, current);
      PerformAllApplies(env, analyzer.emitDiagnostics, v, InstActions(env, v), before);
      BorrowCheckMoves.InstsActionsSnoc(env, entry.insts, j);
      ApplyAllConcat(env, InstsActions(env, entry.insts[..j]), InstActions(env, v), states[entry.name].places);
      j := j + 1;
    }
    initial := ExtractLivePlaces(current.places);
  }

  /** Arguments are the first values, and slots. */
  ghost predicate ArgsFirst(func: Function) {
    func.argCount <= |func.values| && forall v :: 0 <= v < func.argCount ==> func.values[v].Alloca?
  }

  lemma {:induction false} EntryHas(func: Function, n: nat)
    requires ArgsFirst(func) && n <= |func.values|
    ensures n <= func.argCount ==> CountAllocas(func, n) == n
    ensures n >= func.argCount ==> CountAllocas(func, n) >= func.argCount
    ensures forall p :: p in EntryPlaces(func, n) <==> p.projections == [] && p.local < n && IsAlloca(func, p.local)
    ensures forall p :: p in EntryPlaces(func, n) ==>
      EntryPlaces(func, n)[p] == if p.local < func.argCount then Live else Uninitialized
  {
    if n > 0 { EntryHas(func, n - 1); }
  }

  /** Meeting a slot of the entry table again changes nothing. */
  lemma {:induction false} SlotsKeep(env: Env, insts: seq<ValueId>, n: nat)
    requires ArgsFirst(env.func) && n <= |insts| && forall i :: 0 <= i < n ==> IsAlloca(env.func, insts[i])
    ensures ApplyAll(env, InstsActions(env, insts[..n]), EntryTable(env.func)) == EntryTable(env.func)
  {
    hide InstsActions, InstActions, EntryPlaces;
    var m := EntryTable(env.func);
    if n == 0 {
      assert insts[..0] == [] && InstsActions(env, []) == [] by { NoInsts(env, m); }
    } else {
      SlotsKeep(env, insts, n - 1);
      BorrowCheckMoves.InstsActionsSnoc(env, insts, n - 1);
      ApplyAllConcat(env, InstsActions(env, insts[..n - 1]), InstActions(env, insts[n - 1]), m);
      SlotKeeps(env, insts[n - 1]);
    }
  }

  lemma NoInsts(env: Env, m: PlaceMap)
    ensures InstsActions(env, []) == [] && ApplyAll(env, [], m) == m
  {}

  lemma SlotKeeps(env: Env, v: ValueId)
    requires ArgsFirst(env.func) && IsAlloca(env.func, v)
    ensures ApplyAll(env, InstActions(env, v), EntryTable(env.func)) == EntryTable(env.func)
  {
    hide EntryPlaces;
    var m := EntryTable(env.func);
    EntryHas(env.func, |env.func.values|);
    var act := Allocate(Place(v, []), if v >= env.func.argCount then Uninitialized else Live);
    assert InstActions(env, v) == [act] && [act][..0] == [] && Place(v, []) in m;
    assert ApplyAll(env, [act], m) == Apply(env, act, ApplyAll(env, [], m)) == m;
  }

  /** A task that has not been polled owns its arguments and nothing else, if no branch leads back
      to the first block. */
  lemma InitialIsArguments(env: Env, states: map<Label, State>, initial: SuspensionState)
    requires states.Keys == Labels(env.func) && NoWayBack(env.func) && ArgsFirst(env.func)
    requires forall l :: l in states ==> StartsAtEntry(env.func, l, states[l])
    requires InitialDescribed(env, states, initial)
    ensures forall p :: p in initial.live <==> p.projections == [] && p.local < env.func.argCount
  {
    hide InstsActions;
    var entry := env.func.blocks[0];
    assert entry.name in Labels(env.func);
    SlotsKeep(env, entry.insts, LeadingAllocas(env.func, entry.insts));
    EntryHas(env.func, |env.func.values|);
    var m := EntryTable(env.func);
    forall p ensures p in initial.live <==> p.projections == [] && p.local < env.func.argCount {
      assert KeptRaw(m, p) <==> p.projections == [] && p.local < env.func.argCount;
      assert Kept(m, p) <==> KeptRaw(m, p) by {
        forall q | KeptRaw(m, p) && KeptRaw(m, q) && q != p ensures !Ancestor(q, p) {
          assert q.projections == [] && p.projections == [];
        }
      }
    }
  }

  // ----- the whole map -------------------------------------------------------------------

  /** State 0 and every await have the description of the solved table there. */
  ghost predicate StatesDescribed(
      env: Env, order: KeyOrder, initial: SuspensionState, awaits: map<ValueId, SuspensionState>) {
    exists states, reached :: ForwardFixpoint(env.func, MoveAnalysis(env, order), states, reached)
                              && (forall l :: l in states ==> StartsAtEntry(env.func, l, states[l]))
                              && InitialDescribed(env, states, initial)
                              && AwaitsUpTo(env, states, awaits, |env.func.blocks|, 0)
  }

  /** What is recorded for an await describes a solved table there. */
  lemma AwaitIsDescribed(
      env: Env, order: KeyOrder, initial: SuspensionState, awaits: map<ValueId, SuspensionState>, b: nat, j: nat)
    returns (states: map<Label, State>)
    requires StatesDescribed(env, order, initial, awaits)
    requires b < |env.func.blocks| && j < |env.func.blocks[b].insts| && IsAwait(env.func, env.func.blocks[b].insts[j])
    ensures states.Keys == Labels(env.func) && forall l :: l in states ==> StartsAtEntry(env.func, l, states[l])
    ensures AwaitRecorded(env, states, awaits, b, j)
  {
    hide InitialDescribed, AwaitRecorded, StartsAtEntry;
    var solved: map<Label, State>, reached: set<Label> :|
      ForwardFixpoint(env.func, MoveAnalysis(env, order), solved, reached)
      && (forall l :: l in solved ==> StartsAtEntry(env.func, l, solved[l]))
      && InitialDescribed(env, solved, initial) && AwaitsUpTo(env, solved, awaits, |env.func.blocks|, 0);
    states := solved;
  }

  /** Runs the move analysis and describes the table behind the first slots and before every await
      of every block. */
  method ComputeSuspensionStates(
      func: Function, copyable: set<ValueId>, droppable: map<Place, seq<nat>>, order: KeyOrder)
    returns (initial: SuspensionState, awaits: map<ValueId, SuspensionState>)
    requires WellFormed(func) && BasesPrecede(func) && ListedOnce(func) && OrdersKeys(order)
    ensures StatesDescribed(BorrowCheckMoves.EnvOf(func, copyable, droppable), order, initial, awaits)
  {
    var analyzer := new MoveAnalyzer(func, copyable, droppable);
    var states, sweeps, reached := BorrowCheckMoves.SolveMoves(analyzer.env, order);
    initial := DescribeInitial(analyzer, states);
    awaits := map[];
    for b := 0 to |func.blocks|
      invariant analyzer.Valid() && fresh(analyzer)
      invariant AwaitsUpTo(analyzer.env, states, awaits, b, 0)
    {
      awaits := ScanBlock(analyzer, states, awaits, b);
    }
  }
}
