/** Writing types into a metadata table: each type once, a slot reserved before its parts. */
module MetadataBuilding {
  import opened Wrappers
  import opened TypeMetadata

  datatype CanonicalSymbolId = CanonicalSymbolId(providerId: nat, name: string)

  /** What symbols are called: `provider` is the provider being written. */
  datatype Naming = Naming(
    provider: nat, providerName: string, providerNames: map<nat, string>, canonicals: map<SymbolId, CanonicalSymbolId>)

  function ConvertSymbolId(n: Naming, c: CanonicalSymbolId): StableSymbol {
    var providerName :=
      if c.providerId == 0 || c.providerId == n.provider then n.providerName
      else if c.providerId in n.providerNames then n.providerNames[c.providerId]
      else "unknown";
    StableSymbol(providerName, c.name)
  }

  function StableOf(n: Naming): SymbolId -> StableSymbol {
    s => if s in n.canonicals then ConvertSymbolId(n, n.canonicals[s]) else StableSymbol("", "")
  }

  /** The table entry of `t` when its parts have the indices `idx`. */
  function Encode(t: SemanticType, idx: seq<nat>, stable: SymbolId -> StableSymbol): CanonicalType
    requires |idx| == |Parts(t)|
  {
    match t
    case Primitive(builtin) => CPrimitive(builtin)
    case Struct(sym, _, _) => CStruct(stable(sym), idx, [])
    case Enum(sym, _, _) => CEnum(stable(sym), idx, [])
    case Tuple(_) => CTuple(idx)
    case Array(_, len) => CArray(idx[0], len)
    case Slice(_) => CSlice(idx[0])
    case Function(params, _) => CFunction(idx[..|params|], idx[|params|])
    case Pointer(mutability, _) => CPointer(mutability, idx[0])
    case Reference(_, mutability, _) => CReference(AnonymousLifetime, mutability, idx[0])
    case Void => CVoid
    case Never => CNever
    case Error => CError
    case InferenceVar(_) => CError
    case GenericParam(sym) => CGenericParam(stable(sym))
    case Closure(expr, captures, _) => CClosure(expr, idx[..|captures|], idx[|captures|])
    case DynTrait(sym) => CDynTrait(stable(sym))
    case Future(_) => CFuture(idx[0])
    case Range(_) => CRange(idx[0])
    case Projection(_, traitId, assoc) => CProjection(idx[0], stable(traitId), stable(assoc))
  }

  lemma EncodeKeepsParts(t: SemanticType, idx: seq<nat>, stable: SymbolId -> StableSymbol)
    requires |idx| == |Parts(t)|
    ensures CanonicalParts(Encode(t, idx, stable)) == idx
  {
    match t
    case Function(params, _) => assert idx == idx[..|params|] + [idx[|params|]];
    case Closure(_, captures, _) => assert idx == idx[..|captures|] + [idx[|captures|]];
    case _ =>
  }

  lemma EncodeKeepsSymbols(t: SemanticType, idx: seq<nat>, stable: SymbolId -> StableSymbol)
    requires |idx| == |Parts(t)|
    ensures |CanonicalSymbols(Encode(t, idx, stable))| == |SymbolsOf(t)|
    ensures forall i :: 0 <= i < |SymbolsOf(t)| ==>
      CanonicalSymbols(Encode(t, idx, stable))[i] == stable(SymbolsOf(t)[i])
  {}

  lemma EncodeKeepsKind(t: SemanticType, idx: seq<nat>, stable: SymbolId -> StableSymbol)
    requires |idx| == |Parts(t)|
    ensures CanonicalKind(Encode(t, idx, stable)) == KindOf(t)
    ensures Encode(t, idx, stable) == CError <==> t.Error? || t.InferenceVar?
  {}

  /** An entry keeps the kind, the parts and, under their stable names, the symbols of the type. */
  lemma EncodeKeeps(t: SemanticType, idx: seq<nat>, stable: SymbolId -> StableSymbol)
    requires |idx| == |Parts(t)|
    ensures var c := Encode(t, idx, stable);
            && CanonicalKind(c) == KindOf(t) && CanonicalParts(c) == idx
            && |CanonicalSymbols(c)| == |SymbolsOf(t)|
            && forall i :: 0 <= i < |SymbolsOf(t)| ==> CanonicalSymbols(c)[i] == stable(SymbolsOf(t)[i])
  {
    hide *;
    EncodeKeepsKind(t, idx, stable);
    EncodeKeepsParts(t, idx, stable);
    EncodeKeepsSymbols(t, idx, stable);
  }

  /** With every part standing for itself an entry spells the type out, field lists and lifetimes aside. */
  lemma EncodeSpells(t: SemanticType, stable: SymbolId -> StableSymbol)
    ensures var c := Encode(t, Parts(t), stable);
      && (t.Primitive? ==> c == CPrimitive(t.builtin))
      && (t.Struct? ==> c == CStruct(stable(t.sym), t.args, []))
      && (t.Enum? ==> c == CEnum(stable(t.sym), t.args, []))
      && (t.Tuple? ==> c == CTuple(t.elems))
      && (t.Array? ==> c == CArray(t.inner, t.len))
      && (t.Slice? ==> c == CSlice(t.inner))
      && (t.Function? ==> c == CFunction(t.params, t.ret))
      && (t.Pointer? ==> c == CPointer(t.mutability, t.inner))
      && (t.Reference? ==> c == CReference(AnonymousLifetime, t.mutability, t.inner))
      && (c.CVoid? <==> t.Void?) && (c.CNever? <==> t.Never?) && (c.CError? <==> t.Error? || t.InferenceVar?)
      && (t.GenericParam? ==> c == CGenericParam(stable(t.sym)))
      && (t.Closure? ==> c == CClosure(t.expr, t.captures, t.ret))
      && (t.DynTrait? ==> c == CDynTrait(stable(t.sym)))
      && (t.Future? ==> c == CFuture(t.inner))
      && (t.Range? ==> c == CRange(t.inner))
      && (t.Projection? ==> c == CProjection(t.self, stable(t.traitId), stable(t.assoc)))
  {
    match t
    case Function(params, ret) => assert (params + [ret])[..|params|] == params;
    case Closure(_, captures, ret) => assert (captures + [ret])[..|captures|] == captures;
    case _ =>
  }

  type TypeMap = map<TypeId, nat>

  function Indices(m: TypeMap, parts: seq<TypeId>): seq<nat>
    requires forall k :: 0 <= k < |parts| ==> parts[k] in m
  {
    seq(|parts|, k requires 0 <= k < |parts| => m[parts[k]])
  }

  /** The slot of `id` holds its entry, and its parts have slots too. */
  ghost predicate Encoded(
      types: seq<SemanticType>, stable: SymbolId -> StableSymbol, m: TypeMap, table: seq<CanonicalType>, id: TypeId)
  {
    && id < |types| && id in m && m[id] < |table|
    && (forall k :: 0 <= k < |Parts(types[id])| ==> Parts(types[id])[k] in m)
    && table[m[id]] == Encode(types[id], Indices(m, Parts(types[id])), stable)
  }

  /** Types have slots of their own; all but the `open` ones hold their entries. Slots of no type
      have no parts. */
  ghost predicate TableOk(
      types: seq<SemanticType>, stable: SymbolId -> StableSymbol, m: TypeMap, table: seq<CanonicalType>,
      open: set<TypeId>)
  {
    && (forall id :: id in m ==> id < |types| && m[id] < |table|)
    && (forall a, b :: a in m && b in m && m[a] == m[b] ==> a == b)
    && (forall id :: id in m && id !in open ==> Encoded(types, stable, m, table, id))
    && (forall i :: 0 <= i < |table| ==> CanonicalParts(table[i]) == [] || exists id :: id in m && m[id] == i)
  }

  lemma ReserveKeeps(
      types: seq<SemanticType>, stable: SymbolId -> StableSymbol, m: TypeMap, table: seq<CanonicalType>,
      open: set<TypeId>, id: TypeId)
    requires TableOk(types, stable, m, table, open) && id < |types| && id !in m
    ensures TableOk(types, stable, m[id := |table|], table + [CError], open + {id})
  {
    hide Encode, CanonicalParts;
    var m', table' := m[id := |table|], table + [CError];
    forall a | a in m' && a !in open + {id} ensures Encoded(types, stable, m', table', a) {
      assert Encoded(types, stable, m, table, a);
      assert Indices(m', Parts(types[a])) == Indices(m, Parts(types[a]));
    }
    assert CanonicalParts(CError) == [] by { ErrorHasNoParts(); }
    forall i | 0 <= i < |table'| ensures CanonicalParts(table'[i]) == [] || exists a :: a in m' && m'[a] == i {
      if i < |table| && CanonicalParts(table[i]) != [] {
        var a :| a in m && m[a] == i;
        assert m'[a] == i;
      }
    }
  }

  lemma ErrorHasNoParts()
    ensures CanonicalParts(CError) == []
  {}

  lemma FillKeeps(
      types: seq<SemanticType>, stable: SymbolId -> StableSymbol, m: TypeMap, table: seq<CanonicalType>,
      open: set<TypeId>, id: TypeId)
    requires TableOk(types, stable, m, table, open + {id}) && id in m
    requires forall k :: 0 <= k < |Parts(types[id])| ==> Parts(types[id])[k] in m
    ensures TableOk(types, stable, m, table[m[id] := Encode(types[id], Indices(m, Parts(types[id])), stable)],
      open - {id})
  {
    hide Encode, CanonicalParts;
    var table' := table[m[id] := Encode(types[id], Indices(m, Parts(types[id])), stable)];
    forall a | a in m && a !in open - {id} ensures Encoded(types, stable, m, table', a) {
      if a != id {
        assert Encoded(types, stable, m, table, a);
      }
    }
    forall i | 0 <= i < |table'| ensures CanonicalParts(table'[i]) == [] || exists a :: a in m && m[a] == i {
      if i != m[id] && CanonicalParts(table[i]) != [] {
        var a :| a in m && m[a] == i;
      }
    }
  }

  ghost predicate PartsInRange(types: seq<SemanticType>) {
    forall id, k :: 0 <= id < |types| && 0 <= k < |Parts(types[id])| ==> Parts(types[id])[k] < |types|
  }

  predicate IsId(types: seq<SemanticType>, id: int) {
    0 <= id < |types|
  }

  ghost predicate Extends(m: TypeMap, m': TypeMap) {
    forall id :: id in m ==> id in m' && m'[id] == m[id]
  }

  class MetadataBuilder {
    const types: seq<SemanticType>
    const naming: Naming
    var typeMap: TypeMap
    var canonicalTypes: seq<CanonicalType>

    constructor (types: seq<SemanticType>, naming: Naming)
      ensures this.types == types && this.naming == naming && typeMap == map[] && canonicalTypes == []
      ensures TableOk(types, StableOf(naming), typeMap, canonicalTypes, {})
    {
      this.types, this.naming := types, naming;
      typeMap, canonicalTypes := map[], [];
    }

    ghost predicate Valid(open: set<TypeId>)
      reads this
    {
      && PartsInRange(types) && open <= typeMap.Keys
      && TableOk(types, StableOf(naming), typeMap, canonicalTypes, open)
    }

    ghost function Unwritten(): set<TypeId>
      reads this
    {
      (set id | IsId(types, id) && 0 <= id < |types|) - typeMap.Keys
    }

    /** The slot of a type, reserved and filled, with those of its parts, if it had none. */
    method ConvertTypeId(id: TypeId, ghost open: set<TypeId>) returns (idx: nat)
      requires Valid(open) && id < |types|
      modifies this
      ensures Valid(open) && Extends(old(typeMap), typeMap) && id in typeMap && typeMap[id] == idx
      decreases Unwritten(), 0
    {
      hide TableOk, Encode, Parts;
      if id in typeMap {
        return typeMap[id];
      }
      idx := |canonicalTypes|;
      ReserveKeeps(types, StableOf(naming), typeMap, canonicalTypes, open, id);
      typeMap := typeMap[id := idx];
      canonicalTypes := canonicalTypes + [CError];
      assert IsId(types, id) && id in old(Unwritten()) && id !in Unwritten();
      var canon := ConvertSemanticType(types[id], id, open + {id});
      FillKeeps(types, StableOf(naming), typeMap, canonicalTypes, open, id);
      SlotInTable(id, open + {id});
      assert open - {id} == open;
      canonicalTypes := canonicalTypes[idx := canon];
    }

    lemma SlotInTable(id: TypeId, open: set<TypeId>)
      requires Valid(open) && id in typeMap
      ensures typeMap[id] < |canonicalTypes|
    {}

    method ConvertSemanticType(
        t: SemanticType, ghost id: TypeId, ghost open: set<TypeId>) returns (canon: CanonicalType)
      requires Valid(open) && id < |types| && t == types[id]
      modifies this
      ensures Valid(open) && Extends(old(typeMap), typeMap)
      ensures forall k :: 0 <= k < |Parts(t)| ==> Parts(t)[k] in typeMap
      ensures canon == Encode(t, Indices(typeMap, Parts(t)), StableOf(naming))
      decreases Unwritten(), 2
    {
      hide TableOk, Encode, Parts;
      var idx := ConvertAll(Parts(t), open);
      canon := Encode(t, idx, StableOf(naming));
    }

    method ConvertAll(ids: seq<TypeId>, ghost open: set<TypeId>) returns (idx: seq<nat>)
      requires Valid(open) && forall k :: 0 <= k < |ids| ==> ids[k] < |types|
      modifies this
      ensures Valid(open) && Extends(old(typeMap), typeMap)
      ensures forall k :: 0 <= k < |ids| ==> ids[k] in typeMap
      ensures idx == Indices(typeMap, ids)
      decreases Unwritten(), 1
    {
      hide TableOk;
      idx := [];
      for k := 0 to |ids|
        invariant Valid(open) && Extends(old(typeMap), typeMap) && |idx| == k
        invariant forall j :: 0 <= j < k ==> ids[j] in typeMap && typeMap[ids[j]] == idx[j]
      {
        var i := ConvertTypeId(ids[k], open);
        idx := idx + [i];
      }
      assert idx == Indices(typeMap, ids);
    }
  }

  /** Once nothing is open no placeholder is left: an error entry stands for an error type or for
      an inference variable. */
  lemma NoPlaceholderLeft(
      types: seq<SemanticType>, stable: SymbolId -> StableSymbol, m: TypeMap, table: seq<CanonicalType>, id: TypeId)
    requires TableOk(types, stable, m, table, {}) && id in m
    ensures table[m[id]] == CError <==> types[id].Error? || types[id].InferenceVar?
  {
    assert Encoded(types, stable, m, table, id);
    hide *;
    EncodeKeepsKind(types[id], Indices(m, Parts(types[id])), stable);
  }

  // ----- names of symbols ----------------------------------------------------------------

  /** The provider whose symbol it is; the compiler itself counts as the provider being written. */
  function Home(n: Naming, c: CanonicalSymbolId): nat {
    if c.providerId == 0 then n.provider else c.providerId
  }

  /** What a provider is called: by its own name, by the one it is registered under, or not at all. */
  ghost predicate IsTitle(n: Naming, provider: nat, title: string) {
    || (provider == n.provider && title == n.providerName)
    || (provider != n.provider && provider in n.providerNames && title == n.providerNames[provider])
    || (provider != n.provider && provider !in n.providerNames && title == "unknown")
  }

  /** Every symbol of every entry is written under its own path and its home's name. */
  lemma SymbolsNamed(
      types: seq<SemanticType>, n: Naming, m: TypeMap, table: seq<CanonicalType>, id: TypeId, i: nat)
    requires TableOk(types, StableOf(n), m, table, {}) && id in m
    requires i < |SymbolsOf(types[id])| && SymbolsOf(types[id])[i] in n.canonicals
    ensures |CanonicalSymbols(table[m[id]])| == |SymbolsOf(types[id])|
    ensures var c, w := n.canonicals[SymbolsOf(types[id])[i]], CanonicalSymbols(table[m[id]])[i];
            w.path == c.name && IsTitle(n, Home(n, c), w.providerName)
  {
    hide Encode, CanonicalSymbols, SymbolsOf, Parts, CanonicalParts;
    assert Encoded(types, StableOf(n), m, table, id);
    EncodeKeepsSymbols(types[id], Indices(m, Parts(types[id])), StableOf(n));
  }

  /** Providers are registered, each under a name of its own. */
  ghost predicate TitlesApart(n: Naming) {
    && (forall p, q :: p in n.providerNames && q in n.providerNames && n.providerNames[p] == n.providerNames[q] ==>
          p == q)
    && (forall p :: p in n.providerNames && p != n.provider ==> n.providerNames[p] != n.providerName)
  }

  /** The provider is the one being written or a registered one. */
  ghost predicate Known(n: Naming, provider: nat) {
    provider == n.provider || provider in n.providerNames
  }

  ghost predicate SamePath(n: Naming, s: SymbolId, r: SymbolId)
    requires s in n.canonicals && r in n.canonicals
  {
    var c, d := n.canonicals[s], n.canonicals[r];
    c.name == d.name && Home(n, c) == Home(n, d)
  }

  /** Symbols of types are at home in known providers, each under a path of its own. */
  ghost predicate PathsApart(types: seq<SemanticType>, n: Naming) {
    && (forall s :: Occurs(types, s) ==> s in n.canonicals && Known(n, Home(n, n.canonicals[s])))
    && (forall s, r :: Occurs(types, s) && Occurs(types, r) && SamePath(n, s, r) ==> s == r)
  }

  /** Then no two symbols are written under one name. */
  lemma NamesApart(types: seq<SemanticType>, n: Naming)
    requires TitlesApart(n) && PathsApart(types, n)
    ensures Injective(types, StableOf(n))
  {
    hide Occurs;
  }

  /** Two providers that are not registered are not told apart. */
  lemma UnknownProvidersMix(n: Naming, s: SymbolId, r: SymbolId)
    requires s in n.canonicals && r in n.canonicals && n.canonicals[s].name == n.canonicals[r].name
    requires Home(n, n.canonicals[s]) != n.provider && Home(n, n.canonicals[r]) != n.provider
    requires n.canonicals[s].providerId !in n.providerNames && n.canonicals[r].providerId !in n.providerNames
    ensures StableOf(n)(s) == StableOf(n)(r)
  {}
}
