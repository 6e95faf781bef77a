/** Types as the compiler interns them and as library metadata stores them. */
module TypeMetadata {
  import opened Wrappers

  type TypeId = nat
  type SymbolId = nat

  datatype StableSymbol = StableSymbol(providerName: string, path: string)
  datatype Mutability = Mutable | Immutable
  datatype CanonicalLifetime = StaticLifetime | NamedLifetime(name: string) | AnonymousLifetime

  datatype SemanticType =
    | Primitive(builtin: nat)
    | Struct(sym: SymbolId, args: seq<TypeId>, fields: seq<TypeId>)
    | Enum(sym: SymbolId, args: seq<TypeId>, fields: seq<TypeId>)
    | Tuple(elems: seq<TypeId>)
    | Array(inner: TypeId, len: nat)
    | Slice(inner: TypeId)
    | Function(params: seq<TypeId>, ret: TypeId)
    | Pointer(mutability: Mutability, inner: TypeId)
    | Reference(lifetime: nat, mutability: Mutability, inner: TypeId)
    | Void
    | Never
    | Error
    | InferenceVar(n: nat)
    | GenericParam(sym: SymbolId)
    | Closure(expr: nat, captures: seq<TypeId>, ret: TypeId)
    | DynTrait(sym: SymbolId)
    | Future(inner: TypeId)
    | Range(inner: TypeId)
    | Projection(self: TypeId, traitId: SymbolId, assoc: SymbolId)

  /** As in a metadata table: types are table indices, symbols have stable names. */
  datatype CanonicalType =
    | CPrimitive(builtin: nat)
    | CStruct(sym: StableSymbol, args: seq<nat>, fields: seq<nat>)
    | CEnum(sym: StableSymbol, args: seq<nat>, fields: seq<nat>)
    | CTuple(elems: seq<nat>)
    | CArray(inner: nat, len: nat)
    | CSlice(inner: nat)
    | CFunction(params: seq<nat>, ret: nat)
    | CPointer(mutability: Mutability, inner: nat)
    | CReference(lifetime: CanonicalLifetime, mutability: Mutability, inner: nat)
    | CVoid
    | CNever
    | CError
    | CGenericParam(sym: StableSymbol)
    | CClosure(expr: nat, captures: seq<nat>, ret: nat)
    | CDynTrait(sym: StableSymbol)
    | CFuture(inner: nat)
    | CRange(inner: nat)
    | CProjection(self: nat, traitId: StableSymbol, assoc: StableSymbol)

  /** Types a type is made of, in the order they are written; field lists are not among them. */
  function Parts(t: SemanticType): seq<TypeId> {
    match t
    case Struct(_, args, _) => args
    case Enum(_, args, _) => args
    case Tuple(elems) => elems
    case Array(inner, _) => [inner]
    case Slice(inner) => [inner]
    case Function(params, ret) => params + [ret]
    case Pointer(_, inner) => [inner]
    case Reference(_, _, inner) => [inner]
    case Closure(_, captures, ret) => captures + [ret]
    case Future(inner) => [inner]
    case Range(inner) => [inner]
    case Projection(self, _, _) => [self]
    case _ => []
  }

  function CanonicalParts(c: CanonicalType): seq<nat> {
    match c
    case CStruct(_, args, _) => args
    case CEnum(_, args, _) => args
    case CTuple(elems) => elems
    case CArray(inner, _) => [inner]
    case CSlice(inner) => [inner]
    case CFunction(params, ret) => params + [ret]
    case CPointer(_, inner) => [inner]
    case CReference(_, _, inner) => [inner]
    case CClosure(_, captures, ret) => captures + [ret]
    case CFuture(inner) => [inner]
    case CRange(inner) => [inner]
    case CProjection(self, _, _) => [self]
    case _ => []
  }

  function SymbolsOf(t: SemanticType): seq<SymbolId> {
    match t
    case Struct(sym, _, _) => [sym]
    case Enum(sym, _, _) => [sym]
    case GenericParam(sym) => [sym]
    case DynTrait(sym) => [sym]
    case Projection(_, traitId, assoc) => [traitId, assoc]
    case _ => []
  }

  function CanonicalSymbols(c: CanonicalType): seq<StableSymbol> {
    match c
    case CStruct(sym, _, _) => [sym]
    case CEnum(sym, _, _) => [sym]
    case CGenericParam(sym) => [sym]
    case CDynTrait(sym) => [sym]
    case CProjection(_, traitId, assoc) => [traitId, assoc]
    case _ => []
  }

  /** What a type is, parts and symbols aside, and lifetimes, field lists and the names of
      inference variables forgotten. */
  datatype Kind =
    | KPrimitive(builtin: nat) | KStruct | KEnum | KTuple | KArray(len: nat) | KSlice | KFunction
    | KPointer(mutability: Mutability) | KReference(mutability: Mutability) | KVoid | KNever | KError
    | KGenericParam | KClosure(expr: nat) | KDynTrait | KFuture | KRange | KProjection

  function KindOf(t: SemanticType): Kind {
    match t
    case Primitive(builtin) => KPrimitive(builtin)
    case Struct(_, _, _) => KStruct
    case Enum(_, _, _) => KEnum
    case Tuple(_) => KTuple
    case Array(_, len) => KArray(len)
    case Slice(_) => KSlice
    case Function(_, _) => KFunction
    case Pointer(mutability, _) => KPointer(mutability)
    case Reference(_, mutability, _) => KReference(mutability)
    case Void => KVoid
    case Never => KNever
    case Error => KError
    case InferenceVar(_) => KError
    case GenericParam(_) => KGenericParam
    case Closure(expr, _, _) => KClosure(expr)
    case DynTrait(_) => KDynTrait
    case Future(_) => KFuture
    case Range(_) => KRange
    case Projection(_, _, _) => KProjection
  }

  function CanonicalKind(c: CanonicalType): Kind {
    match c
    case CPrimitive(builtin) => KPrimitive(builtin)
    case CStruct(_, _, _) => KStruct
    case CEnum(_, _, _) => KEnum
    case CTuple(_) => KTuple
    case CArray(_, len) => KArray(len)
    case CSlice(_) => KSlice
    case CFunction(_, _) => KFunction
    case CPointer(mutability, _) => KPointer(mutability)
    case CReference(_, mutability, _) => KReference(mutability)
    case CVoid => KVoid
    case CNever => KNever
    case CError => KError
    case CGenericParam(_) => KGenericParam
    case CClosure(expr, _, _) => KClosure(expr)
    case CDynTrait(_) => KDynTrait
    case CFuture(_) => KFuture
    case CRange(_) => KRange
    case CProjection(_, _, _) => KProjection
  }

  // ----- unfolding -----------------------------------------------------------------------

  /** A type written out in full. */
  datatype Tree<S> = Tree(kind: Kind, symbols: seq<S>, parts: seq<Tree<S>>)

  /** Following parts always leads to a lower rank. */
  ghost predicate Acyclic(types: seq<SemanticType>, rank: TypeId -> nat) {
    forall id, k :: 0 <= id < |types| && 0 <= k < |Parts(types[id])| ==>
      Parts(types[id])[k] < |types| && rank(Parts(types[id])[k]) < rank(id)
  }

  /** The type `id` stands for, its symbols renamed by `rename`. */
  ghost function Unfold<S>(types: seq<SemanticType>, rank: TypeId -> nat, rename: SymbolId -> S, id: TypeId): Tree<S>
    requires Acyclic(types, rank) && id < |types|
    decreases rank(id)
  {
    var t := types[id];
    var parts := Parts(t);
    Tree(KindOf(t),
         seq(|SymbolsOf(t)|, i requires 0 <= i < |SymbolsOf(t)| => rename(SymbolsOf(t)[i])),
         seq(|parts|, k requires 0 <= k < |parts| => Unfold(types, rank, rename, parts[k])))
  }

  ghost predicate Injective<S(!new)>(types: seq<SemanticType>, rename: SymbolId -> S) {
    forall s, r :: Occurs(types, s) && Occurs(types, r) && rename(s) == rename(r) ==> s == r
  }

  ghost predicate Occurs(types: seq<SemanticType>, s: SymbolId) {
    exists id :: 0 <= id < |types| && s in SymbolsOf(types[id])
  }

  ghost function Same(s: SymbolId): SymbolId {
    s
  }

  /** Renaming apart loses nothing: types that unfold alike after an injective renaming unfold
      alike without it, and conversely. */
  lemma {:induction false} RenamingApart<S(!new)>(
      types: seq<SemanticType>, rank: TypeId -> nat, rename: SymbolId -> S, a: TypeId, b: TypeId)
    requires Acyclic(types, rank) && a < |types| && b < |types|
    requires Injective(types, rename)
    ensures Unfold(types, rank, rename, a) == Unfold(types, rank, rename, b)
      <==> Unfold(types, rank, Same, a) == Unfold(types, rank, Same, b)
    decreases rank(a)
  {
    var pa, pb := Parts(types[a]), Parts(types[b]);
    var sa, sb := SymbolsOf(types[a]), SymbolsOf(types[b]);
    var ra, rb := Unfold(types, rank, rename, a), Unfold(types, rank, rename, b);
    var ua, ub := Unfold(types, rank, Same, a), Unfold(types, rank, Same, b);
    if |pa| == |pb| {
      forall k | 0 <= k < |pa| ensures ra.parts[k] == rb.parts[k] <==> ua.parts[k] == ub.parts[k] {
        RenamingApart(types, rank, rename, pa[k], pb[k]);
      }
    }
    if |sa| == |sb| {
      forall i | 0 <= i < |sa| ensures ra.symbols[i] == rb.symbols[i] <==> ua.symbols[i] == ub.symbols[i] {
        assert Occurs(types, sa[i]) && Occurs(types, sb[i]);
      }
    }
  }
}
