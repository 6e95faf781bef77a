/** Reading a metadata table back into interned types, and what comes back. */
module MetadataDecoding {
  import opened Wrappers
  import opened TypeMetadata
  import opened MetadataBuilding

  const TWO_TO_THE_32: nat := 0x1_0000_0000

  /** The type of an entry whose parts have the ids `ids`. */
  function Decode(c: CanonicalType, ids: seq<TypeId>, local: StableSymbol -> SymbolId): SemanticType
    requires |ids| == |CanonicalParts(c)|
  {
    match c
    case CPrimitive(builtin) => Primitive(builtin)
    case CStruct(sym, _, _) => Struct(local(sym), ids, [])
    case CEnum(sym, _, _) => Enum(local(sym), ids, [])
    case CTuple(_) => Tuple(ids)
    case CArray(_, len) => Array(ids[0], len)
    case CSlice(_) => Slice(ids[0])
    case CFunction(params, _) => Function(ids[..|params|], ids[|params|])
    case CPointer(mutability, _) => Pointer(mutability, ids[0])
    case CReference(_, mutability, _) => Reference(0, mutability, ids[0])
    case CVoid => Void
    case CNever => Never
    case CError => Error
    case CGenericParam(sym) => GenericParam(local(sym))
    case CClosure(expr, captures, _) => Closure(expr % TWO_TO_THE_32, ids[..|captures|], ids[|captures|])
    case CDynTrait(sym) => DynTrait(local(sym))
    case CFuture(_) => Future(ids[0])
    case CRange(_) => Range(ids[0])
    case CProjection(_, traitId, assoc) => Projection(ids[0], local(traitId), local(assoc))
  }

  /** Expression ids are 32 bits wide. */
  predicate ExprFits(k: Kind) {
    k.KClosure? ==> k.expr < TWO_TO_THE_32
  }

  /** Types as the decoder builds them: no field lists, no lifetimes, no inference variables. */
  predicate Plain(t: SemanticType) {
    match t
    case Struct(_, _, fields) => fields == []
    case Enum(_, _, fields) => fields == []
    case Reference(lifetime, _, _) => lifetime == 0
    case InferenceVar(_) => false
    case _ => true
  }

  lemma DecodeKeepsParts(c: CanonicalType, ids: seq<TypeId>, local: StableSymbol -> SymbolId)
    requires |ids| == |CanonicalParts(c)|
    ensures Parts(Decode(c, ids, local)) == ids
  {
    match c
    case CFunction(params, _) => assert ids == ids[..|params|] + [ids[|params|]];
    case CClosure(_, captures, _) => assert ids == ids[..|captures|] + [ids[|captures|]];
    case _ =>
  }

  lemma DecodeKeepsSymbols(c: CanonicalType, ids: seq<TypeId>, local: StableSymbol -> SymbolId)
    requires |ids| == |CanonicalParts(c)|
    ensures |SymbolsOf(Decode(c, ids, local))| == |CanonicalSymbols(c)|
    ensures forall i :: 0 <= i < |CanonicalSymbols(c)| ==>
      SymbolsOf(Decode(c, ids, local))[i] == local(CanonicalSymbols(c)[i])
  {}

  lemma DecodeKeepsKind(c: CanonicalType, ids: seq<TypeId>, local: StableSymbol -> SymbolId)
    requires |ids| == |CanonicalParts(c)|
    ensures ExprFits(CanonicalKind(c)) ==> KindOf(Decode(c, ids, local)) == CanonicalKind(c)
    ensures Plain(Decode(c, ids, local))
  {}

  lemma DecodeKeeps(c: CanonicalType, ids: seq<TypeId>, local: StableSymbol -> SymbolId)
    requires |ids| == |CanonicalParts(c)|
    ensures var t := Decode(c, ids, local);
            && Plain(t) && Parts(t) == ids && |SymbolsOf(t)| == |CanonicalSymbols(c)|
            && (forall i :: 0 <= i < |CanonicalSymbols(c)| ==> SymbolsOf(t)[i] == local(CanonicalSymbols(c)[i]))
            && (ExprFits(CanonicalKind(c)) ==> KindOf(t) == CanonicalKind(c))
  {
    hide *;
    DecodeKeepsKind(c, ids, local);
    DecodeKeepsParts(c, ids, local);
    DecodeKeepsSymbols(c, ids, local);
  }

  /** With every part standing for itself an entry is read as it is spelt. */
  lemma DecodeSpells(c: CanonicalType, local: StableSymbol -> SymbolId)
    ensures var t := Decode(c, CanonicalParts(c), local);
      && (c.CPrimitive? ==> t == Primitive(c.builtin))
      && (c.CStruct? ==> t == Struct(local(c.sym), c.args, []))
      && (c.CEnum? ==> t == Enum(local(c.sym), c.args, []))
      && (c.CTuple? ==> t == Tuple(c.elems))
      && (c.CArray? ==> t == Array(c.inner, c.len))
      && (c.CSlice? ==> t == Slice(c.inner))
      && (c.CFunction? ==> t == Function(c.params, c.ret))
      && (c.CPointer? ==> t == Pointer(c.mutability, c.inner))
      && (c.CReference? ==> t == Reference(0, c.mutability, c.inner))
      && (t.Void? <==> c.CVoid?) && (t.Never? <==> c.CNever?) && (t.Error? <==> c.CError?)
      && (c.CGenericParam? ==> t == GenericParam(local(c.sym)))
      && (c.CClosure? ==> t == Closure(c.expr % TWO_TO_THE_32, c.captures, c.ret))
      && (c.CDynTrait? ==> t == DynTrait(local(c.sym)))
      && (c.CFuture? ==> t == Future(c.inner))
      && (c.CRange? ==> t == Range(c.inner))
      && (c.CProjection? ==> t == Projection(c.self, local(c.traitId), local(c.assoc)))
  {
    match c
    case CFunction(params, ret) => assert (params + [ret])[..|params|] == params;
    case CClosure(_, captures, ret) => assert (captures + [ret])[..|captures|] == captures;
    case _ =>
  }

  /** A plain type is determined by its kind, its symbols and its parts. */
  lemma PlainDetermined(t: SemanticType, u: SemanticType)
    requires Plain(t) && Plain(u) && KindOf(t) == KindOf(u)
    requires SymbolsOf(t) == SymbolsOf(u) && Parts(t) == Parts(u)
    ensures t == u
  {
    var p, q := Parts(t), Parts(u);
    var s, r := SymbolsOf(t), SymbolsOf(u);
    assert p != [] ==> p[0] == q[0];
    assert s != [] ==> s[0] == r[0];
    assert |s| > 1 ==> s[1] == r[1];
    match t
    case Function(params, ret) => SnocDetermined(params, ret, u.params, u.ret);
    case Closure(_, captures, ret) => SnocDetermined(captures, ret, u.captures, u.ret);
    case _ =>
  }

  lemma SnocDetermined(a: seq<TypeId>, x: TypeId, b: seq<TypeId>, y: TypeId)
    requires a + [x] == b + [y]
    ensures a == b && x == y
  {
    assert (a + [x])[|a|] == x;
    assert (b + [y])[|b|] == y;
    assert a == (a + [x])[..|a|];
    assert b == (b + [y])[..|b|];
  }

  /** Equal symbol maps on the symbols of an entry decode it alike. */
  lemma DecodeUsesOwnSymbols(
      c: CanonicalType, ids: seq<TypeId>, local: StableSymbol -> SymbolId, local': StableSymbol -> SymbolId)
    requires |ids| == |CanonicalParts(c)|
    requires forall i :: 0 <= i < |CanonicalSymbols(c)| ==>
      local(CanonicalSymbols(c)[i]) == local'(CanonicalSymbols(c)[i])
    ensures Decode(c, ids, local) == Decode(c, ids, local')
  {
    var s := CanonicalSymbols(c);
    assert s != [] ==> local(s[0]) == local'(s[0]);
    assert |s| > 1 ==> local(s[1]) == local'(s[1]);
  }

  // ----- the decoder's state -------------------------------------------------------------

  type SymbolMap = map<StableSymbol, SymbolId>
  type IndexMap = map<nat, TypeId>

  function LocalOf(m: SymbolMap): StableSymbol -> SymbolId {
    s => if s in m then m[s] else 0
  }

  function Ids(dm: IndexMap, idx: seq<nat>): seq<TypeId>
    requires forall k :: 0 <= k < |idx| ==> idx[k] in dm
  {
    seq(|idx|, k requires 0 <= k < |idx| => dm[idx[k]])
  }

  /** The interner knows every type of the context under its one id, and parts come first. */
  ghost predicate ContextOk(types: seq<SemanticType>, interner: map<SemanticType, TypeId>) {
    && (forall id :: 0 <= id < |types| ==> types[id] in interner && interner[types[id]] == id)
    && (forall t :: t in interner ==> interner[t] < |types| && types[interner[t]] == t)
    && PartsBelow(types)
    && (forall id :: 0 <= id < |types| ==> Plain(types[id]))
  }

  ghost predicate PartsBelow(types: seq<SemanticType>) {
    forall id, k :: 0 <= id < |types| && 0 <= k < |Parts(types[id])| ==> Parts(types[id])[k] < id
  }

  /** Every symbol has its own number, and the numbers from `next` on are free. */
  ghost predicate SymbolsOk(m: SymbolMap, next: SymbolId) {
    && (forall s :: s in m ==> 1 <= m[s] < next)
    && (forall s, r :: s in m && r in m && m[s] == m[r] ==> s == r)
  }

  ghost predicate SymbolsKnown(m: SymbolMap, symbols: seq<StableSymbol>) {
    forall k :: 0 <= k < |symbols| ==> symbols[k] in m
  }

  /** Entry `i` has been read, all its parts having been read before. */
  ghost predicate Decoded(
      table: seq<CanonicalType>, dm: IndexMap, symbols: SymbolMap, types: seq<SemanticType>, open: set<nat>, i: nat)
  {
    && i < |table| && i in dm && dm[i] < |types|
    && (forall k :: 0 <= k < |CanonicalParts(table[i])| ==>
          CanonicalParts(table[i])[k] in dm && CanonicalParts(table[i])[k] !in open)
    && SymbolsKnown(symbols, CanonicalSymbols(table[i]))
    && types[dm[i]] == Decode(table[i], Ids(dm, CanonicalParts(table[i])), LocalOf(symbols))
  }

  ghost predicate IndexOk(
      table: seq<CanonicalType>, dm: IndexMap, symbols: SymbolMap, types: seq<SemanticType>, open: set<nat>)
  {
    && open <= dm.Keys
    && (forall i :: i in dm ==> i < |table| && dm[i] < |types|)
    && (forall i :: i in dm && i !in open ==> Decoded(table, dm, symbols, types, open, i))
  }

  /** Entries refer to entries of lower rank. */
  ghost predicate TableAcyclic(table: seq<CanonicalType>, rank: nat -> nat) {
    forall i, k :: 0 <= i < |table| && 0 <= k < |CanonicalParts(table[i])| ==>
      CanonicalParts(table[i])[k] < |table| && rank(CanonicalParts(table[i])[k]) < rank(i)
  }

  ghost predicate IndexExtends(dm: IndexMap, dm': IndexMap) {
    forall i :: i in dm ==> i in dm' && dm'[i] == dm[i]
  }

  ghost predicate SymbolsExtend(m: SymbolMap, m': SymbolMap) {
    forall s :: s in m ==> s in m' && m'[s] == m[s]
  }

  /** What has been read stays read while the context, the symbols and the map grow. */
  lemma DecodedStays(
      table: seq<CanonicalType>, dm: IndexMap, symbols: SymbolMap, types: seq<SemanticType>, open: set<nat>,
      dm': IndexMap, symbols': SymbolMap, types': seq<SemanticType>, open': set<nat>, i: nat)
    requires Decoded(table, dm, symbols, types, open, i)
    requires types <= types' && SymbolsExtend(symbols, symbols')
    requires i in dm' && dm'[i] == dm[i]
    requires forall j :: j in dm && j !in open ==> j in dm' && dm'[j] == dm[j] && j !in open'
    ensures Decoded(table, dm', symbols', types', open', i)
  {
    hide Decode, CanonicalParts, CanonicalSymbols;
    var c := table[i];
    assert Ids(dm', CanonicalParts(c)) == Ids(dm, CanonicalParts(c));
    DecodeUsesOwnSymbols(c, Ids(dm, CanonicalParts(c)), LocalOf(symbols), LocalOf(symbols'));
  }

  lemma InternKeeps(types: seq<SemanticType>, interner: map<SemanticType, TypeId>, t: SemanticType)
    requires ContextOk(types, interner) && t !in interner && Plain(t)
    requires forall k :: 0 <= k < |Parts(t)| ==> Parts(t)[k] < |types|
    ensures ContextOk(types + [t], interner[t := |types|])
  {
    hide Parts, Plain;
  }

  lemma GrowKeeps(
      table: seq<CanonicalType>, dm: IndexMap, symbols: SymbolMap, types: seq<SemanticType>, open: set<nat>,
      symbols': SymbolMap, types': seq<SemanticType>)
    requires IndexOk(table, dm, symbols, types, open)
    requires types <= types' && SymbolsExtend(symbols, symbols')
    ensures IndexOk(table, dm, symbols', types', open)
  {
    hide Decoded;
    forall i | i in dm && i !in open ensures Decoded(table, dm, symbols', types', open, i) {
      DecodedStays(table, dm, symbols, types, open, dm, symbols', types', open, i);
    }
  }

  lemma OpenKeeps(
      table: seq<CanonicalType>, dm: IndexMap, symbols: SymbolMap, types: seq<SemanticType>, open: set<nat>,
      index: nat, temp: TypeId)
    requires IndexOk(table, dm, symbols, types, open) && index < |table| && index !in dm && temp < |types|
    ensures IndexOk(table, dm[index := temp], symbols, types, open + {index})
  {
    hide Decoded;
    forall i | i in dm && i !in open ensures Decoded(table, dm[index := temp], symbols, types, open + {index}, i) {
      DecodedStays(table, dm, symbols, types, open, dm[index := temp], symbols, types, open + {index}, i);
    }
  }

  lemma CloseKeeps(
      table: seq<CanonicalType>, dm: IndexMap, symbols: SymbolMap, types: seq<SemanticType>, open: set<nat>,
      index: nat, final: TypeId)
    requires IndexOk(table, dm, symbols, types, open + {index}) && index !in open && index < |table| && final < |types|
    requires forall k :: 0 <= k < |CanonicalParts(table[index])| ==>
      CanonicalParts(table[index])[k] in dm && CanonicalParts(table[index])[k] !in open + {index}
    requires SymbolsKnown(symbols, CanonicalSymbols(table[index]))
    requires types[final] == Decode(table[index], Ids(dm, CanonicalParts(table[index])), LocalOf(symbols))
    ensures IndexOk(table, dm[index := final], symbols, types, open)
  {
    var dm' := dm[index := final];
    assert Decoded(table, dm', symbols, types, open, index) by {
      hide Decode, CanonicalParts, CanonicalSymbols;
      assert Ids(dm', CanonicalParts(table[index])) == Ids(dm, CanonicalParts(table[index]));
    }
    hide Decoded;
    forall i | i in dm' && i !in open && i != index ensures Decoded(table, dm', symbols, types, open, i) {
      DecodedStays(table, dm, symbols, types, open + {index}, dm', symbols, types, open, i);
    }
  }

  /** Symbols numbered before the parts of an entry are read, and after. */
  function FirstSymbols(c: CanonicalType): seq<StableSymbol> {
    if c.CProjection? then [] else CanonicalSymbols(c)
  }

  function LastSymbols(c: CanonicalType): seq<StableSymbol> {
    if c.CProjection? then CanonicalSymbols(c) else []
  }

  class InterfaceDecoder {
    const table: seq<CanonicalType>
    ghost const rank: nat -> nat
    var types: seq<SemanticType>
    var typeInterner: map<SemanticType, TypeId>
    var typeMap: IndexMap
    var stableToLocal: SymbolMap
    var symbolIdAllocator: SymbolId

    ghost predicate Valid(open: set<nat>)
      reads this
    {
      && TableAcyclic(table, rank)
      && ContextOk(types, typeInterner)
      && SymbolsOk(stableToLocal, symbolIdAllocator) && 1 <= symbolIdAllocator
      && IndexOk(table, typeMap, stableToLocal, types, open)
    }

    /** Nothing the decoder knows is forgotten or renumbered. */
    twostate predicate Grew()
      reads this
    {
      && old(types) <= types && SymbolsExtend(old(stableToLocal), stableToLocal)
      && IndexExtends(old(typeMap), typeMap)
    }

    constructor (table: seq<CanonicalType>, ghost rank: nat -> nat)
      requires TableAcyclic(table, rank)
      ensures Valid({}) && this.table == table && this.rank == rank && typeMap == map[]
    {
      this.table := table;
      this.rank := rank;
      types, typeInterner, typeMap := [], map[], map[];
      stableToLocal, symbolIdAllocator := map[], 1;
    }

    method Intern(t: SemanticType, ghost open: set<nat>) returns (id: TypeId)
      requires Valid(open) && Plain(t) && forall k :: 0 <= k < |Parts(t)| ==> Parts(t)[k] < |types|
      modifies this`types, this`typeInterner
      ensures Valid(open) && old(types) <= types
      ensures id < |types| && types[id] == t
    {
      hide IndexOk, SymbolsOk, TableAcyclic, Plain, Parts;
      if t in typeInterner {
        return typeInterner[t];
      }
      id := |types|;
      InternKeeps(types, typeInterner, t);
      GrowKeeps(table, typeMap, stableToLocal, types, open, stableToLocal, types + [t]);
      types := types + [t];
      typeInterner := typeInterner[t := id];
    }

    method AllocateSym(stable: StableSymbol, ghost open: set<nat>) returns (id: SymbolId)
      requires Valid(open)
      modifies this`stableToLocal, this`symbolIdAllocator
      ensures Valid(open) && SymbolsExtend(old(stableToLocal), stableToLocal)
      ensures stable in stableToLocal && stableToLocal[stable] == id
    {
      hide IndexOk, ContextOk, TableAcyclic;
      if stable in stableToLocal {
        return stableToLocal[stable];
      }
      id := symbolIdAllocator;
      symbolIdAllocator := symbolIdAllocator + 1;
      GrowKeeps(table, typeMap, stableToLocal, types, open, stableToLocal[stable := id], types);
      stableToLocal := stableToLocal[stable := id];
    }

    method AllocateAll(symbols: seq<StableSymbol>, ghost open: set<nat>)
      requires Valid(open)
      modifies this`stableToLocal, this`symbolIdAllocator
      ensures Valid(open) && SymbolsExtend(old(stableToLocal), stableToLocal) && SymbolsKnown(stableToLocal, symbols)
    {
      hide IndexOk, ContextOk, TableAcyclic, SymbolsOk;
      for k := 0 to |symbols|
        invariant Valid(open) && SymbolsExtend(old(stableToLocal), stableToLocal)
        invariant forall j :: 0 <= j < k ==> symbols[j] in stableToLocal
      {
        var id := AllocateSym(symbols[k], open);
      }
    }

    /** The id of the type that entry `index` stands for. */
    method DecodeTypeIndex(index: nat, ghost open: set<nat>) returns (id: TypeId)
      requires Valid(open) && index < |table| && forall o :: o in open ==> rank(index) < rank(o)
      modifies this
      ensures Valid(open) && Grew() && index in typeMap && index !in open && typeMap[index] == id
      decreases rank(index), 1
    {
      if index in typeMap {
        return typeMap[index];
      }
      hide ContextOk, SymbolsOk, Decode, CanonicalParts, CanonicalSymbols, IndexOk, TableAcyclic, EntryRead;
      NotOpen(index, open);
      Reserve(index, open);
      var sem := DecodeEntry(index, open + {index});
      id := Close(index, sem, open);
    }

    /** The index gets the id of the type that has been read for it. */
    method Close(index: nat, sem: SemanticType, ghost open: set<nat>) returns (id: TypeId)
      requires Valid(open + {index}) && index !in open && index in typeMap
      requires EntryRead(index, open + {index}, sem)
      modifies this`types, this`typeInterner, this`typeMap
      ensures Valid(open) && old(types) <= types && typeMap == old(typeMap)[index := id]
    {
      hide ContextOk, SymbolsOk, Decode, CanonicalParts, CanonicalSymbols, TableAcyclic, Plain, Parts, Decoded;
      id := Intern(sem, open + {index});
      CloseKeeps(table, typeMap, stableToLocal, types, open, index, id);
      typeMap := typeMap[index := id];
    }

    /** `sem` is the type of entry `index`, all of whose parts have been read. */
    ghost predicate EntryRead(index: nat, open: set<nat>, sem: SemanticType)
      reads this
    {
      && index < |table|
      && (forall k :: 0 <= k < |CanonicalParts(table[index])| ==>
            CanonicalParts(table[index])[k] in typeMap && CanonicalParts(table[index])[k] !in open)
      && SymbolsKnown(stableToLocal, CanonicalSymbols(table[index]))
      && sem == Decode(table[index], Ids(typeMap, CanonicalParts(table[index])), LocalOf(stableToLocal))
      && Plain(sem) && forall k :: 0 <= k < |Parts(sem)| ==> Parts(sem)[k] < |types|
    }

    /** Until its entry has been read an index stands for the error type. */
    method Reserve(index: nat, ghost open: set<nat>)
      requires Valid(open) && index < |table| && index !in typeMap
      modifies this`types, this`typeInterner, this`typeMap
      ensures Valid(open + {index}) && old(types) <= types && typeMap.Keys == old(typeMap.Keys) + {index}
      ensures IndexExtends(old(typeMap), typeMap)
    {
      hide IndexOk, ContextOk, SymbolsOk, TableAcyclic;
      var temp := Intern(Error, open);
      OpenKeeps(table, typeMap, stableToLocal, types, open, index, temp);
      typeMap := typeMap[index := temp];
    }

    lemma NotOpen(index: nat, open: set<nat>)
      requires Valid(open) && index !in typeMap
      ensures index !in open
    {}

    method DecodeEntry(index: nat, ghost open: set<nat>) returns (sem: SemanticType)
      requires Valid(open) && index < |table| && index in open
      requires forall o :: o in open ==> rank(index) <= rank(o)
      modifies this
      ensures Valid(open) && Grew()
      ensures EntryRead(index, open, sem)
      decreases rank(index), 1, 0
    {
      hide ContextOk, SymbolsOk, Decode, CanonicalParts, CanonicalSymbols, IndexOk, Plain, Parts;
      var canon := table[index];
      AllocateAll(FirstSymbols(canon), open);
      var ids := DecodeAll(CanonicalParts(canon), open, rank(index));
      AllocateAll(LastSymbols(canon), open);
      sem := Decode(canon, ids, LocalOf(stableToLocal));
      DecodeKeeps(canon, ids, LocalOf(stableToLocal));
      IdsInContext(CanonicalParts(canon), open);
    }

    lemma IdsInContext(idx: seq<nat>, open: set<nat>)
      requires Valid(open) && forall k :: 0 <= k < |idx| ==> idx[k] in typeMap
      ensures forall k :: 0 <= k < |idx| ==> Ids(typeMap, idx)[k] < |types|
    {}

    method DecodeAll(idx: seq<nat>, ghost open: set<nat>, ghost bound: nat) returns (ids: seq<TypeId>)
      requires Valid(open)
      requires forall k :: 0 <= k < |idx| ==> idx[k] < |table| && rank(idx[k]) < bound
      requires forall o :: o in open ==> bound <= rank(o)
      modifies this
      ensures Valid(open) && Grew()
      ensures forall k :: 0 <= k < |idx| ==> idx[k] in typeMap && idx[k] !in open
      ensures ids == Ids(typeMap, idx)
      decreases bound, 0
    {
      hide ContextOk, SymbolsOk, IndexOk, TableAcyclic;
      ids := [];
      for k := 0 to |idx|
        invariant Valid(open) && Grew() && |ids| == k
        invariant forall j :: 0 <= j < k ==> idx[j] in typeMap && idx[j] !in open && typeMap[idx[j]] == ids[j]
      {
        var id := DecodeTypeIndex(idx[k], open);
        ids := ids + [id];
      }
      assert ids == Ids(typeMap, idx);
    }

    /** Reads every entry. */
    method DecodeTypes()
      requires Valid({})
      modifies this
      ensures Valid({}) && forall i :: 0 <= i < |table| ==> i in typeMap
    {
      hide ContextOk, SymbolsOk, IndexOk, TableAcyclic;
      for i := 0 to |table|
        invariant Valid({}) && forall j :: 0 <= j < i ==> j in typeMap
      {
        var id := DecodeTypeIndex(i, {});
      }
    }
  }
}
