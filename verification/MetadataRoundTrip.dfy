/** Types that have been written to a metadata table and read back. */
module MetadataRoundTrip {
  import opened Wrappers
  import opened TypeMetadata
  import opened MetadataBuilding
  import opened MetadataDecoding

  /** Writing has finished: no slot is open. */
  ghost predicate Written(
      types: seq<SemanticType>, stable: SymbolId -> StableSymbol, m: TypeMap, table: seq<CanonicalType>) {
    TableOk(types, stable, m, table, {})
  }

  /** Reading has finished: every entry has been read. */
  ghost predicate Read(
      table: seq<CanonicalType>, dm: IndexMap, symbols: SymbolMap, types: seq<SemanticType>,
      interner: map<SemanticType, TypeId>)
  {
    && ContextOk(types, interner)
    && IndexOk(table, dm, symbols, types, {})
    && forall i :: 0 <= i < |table| ==> i in dm
  }

  ghost function ById(id: TypeId): nat {
    id
  }

  /** The number the decoder gave to the stable name of a symbol. */
  function Renamed(stable: SymbolId -> StableSymbol, symbols: SymbolMap): SymbolId -> SymbolId {
    s => LocalOf(symbols)(stable(s))
  }

  ghost predicate ExprsFit(types: seq<SemanticType>) {
    forall id :: 0 <= id < |types| ==> ExprFits(KindOf(types[id]))
  }

  /** The ranks of the table entries: those of the types they stand for. */
  ghost function TableRank(m: TypeMap, rank: TypeId -> nat): nat -> nat {
    (i: nat) => RankOfSlot(m, rank, i)
  }

  ghost function RankOfSlot(m: TypeMap, rank: TypeId -> nat, i: nat): nat {
    if exists id: TypeId :: id in m && m[id] == i then
      var id: TypeId :| id in m && m[id] == i;
      rank(id)
    else 0
  }

  lemma RankInTable(m: TypeMap, rank: TypeId -> nat, id: TypeId)
    requires id in m && forall a, b :: a in m && b in m && m[a] == m[b] ==> a == b
    ensures TableRank(m, rank)(m[id]) == rank(id)
  {}

  /** The table of an acyclic set of types is acyclic. */
  lemma WrittenIsAcyclic(
      types: seq<SemanticType>, rank: TypeId -> nat, stable: SymbolId -> StableSymbol, m: TypeMap,
      table: seq<CanonicalType>)
    requires Acyclic(types, rank) && Written(types, stable, m, table)
    ensures TableAcyclic(table, TableRank(m, rank))
  {
    forall i, k | 0 <= i < |table| && 0 <= k < |CanonicalParts(table[i])|
      ensures CanonicalParts(table[i])[k] < |table|
      ensures TableRank(m, rank)(CanonicalParts(table[i])[k]) < TableRank(m, rank)(i)
    {
      var id :| id in m && m[id] == i;
      assert Encoded(types, stable, m, table, id);
      hide Encode, CanonicalParts, Parts;
      var parts := Parts(types[id]);
      EncodeKeeps(types[id], Indices(m, parts), stable);
      RankInTable(m, rank, id);
      RankInTable(m, rank, parts[k]);
    }
  }

  /** What a type and its entry have in common. */
  lemma WriteLevel(
      types: seq<SemanticType>, stable: SymbolId -> StableSymbol, m: TypeMap, table: seq<CanonicalType>, id: TypeId)
    requires Written(types, stable, m, table) && id in m
    ensures id < |types| && m[id] < |table|
    ensures var t, c := types[id], table[m[id]];
            && CanonicalKind(c) == KindOf(t)
            && |CanonicalParts(c)| == |Parts(t)| && |CanonicalSymbols(c)| == |SymbolsOf(t)|
            && (forall k :: 0 <= k < |Parts(t)| ==> Parts(t)[k] in m && CanonicalParts(c)[k] == m[Parts(t)[k]])
            && (forall i :: 0 <= i < |SymbolsOf(t)| ==> CanonicalSymbols(c)[i] == stable(SymbolsOf(t)[i]))
  {
    hide Encode, CanonicalParts, CanonicalSymbols, Parts, SymbolsOf, KindOf, CanonicalKind;
    assert Encoded(types, stable, m, table, id);
    EncodeKeeps(types[id], Indices(m, Parts(types[id])), stable);
  }

  /** What an entry and the type read for it have in common. */
  lemma ReadLevel(
      table: seq<CanonicalType>, dm: IndexMap, symbols: SymbolMap, dtypes: seq<SemanticType>,
      interner: map<SemanticType, TypeId>, i: nat)
    requires Read(table, dm, symbols, dtypes, interner) && i < |table| && ExprFits(CanonicalKind(table[i]))
    ensures i in dm && dm[i] < |dtypes|
    ensures var c, u := table[i], dtypes[dm[i]];
            && Plain(u) && KindOf(u) == CanonicalKind(c)
            && |Parts(u)| == |CanonicalParts(c)| && |SymbolsOf(u)| == |CanonicalSymbols(c)|
            && (forall k :: 0 <= k < |Parts(u)| ==>
              CanonicalParts(c)[k] in dm && Parts(u)[k] == dm[CanonicalParts(c)[k]])
            && (forall k :: 0 <= k < |SymbolsOf(u)| ==>
                  CanonicalSymbols(c)[k] in symbols && SymbolsOf(u)[k] == LocalOf(symbols)(CanonicalSymbols(c)[k]))
  {
    hide Decode, CanonicalParts, CanonicalSymbols, Parts, SymbolsOf, KindOf, CanonicalKind, Plain, ContextOk;
    assert Decoded(table, dm, symbols, dtypes, {}, i);
    DecodeKeeps(table[i], Ids(dm, CanonicalParts(table[i])), LocalOf(symbols));
  }

  /** What a type and the type read back for it have in common. */
  lemma OneLevel(
      types: seq<SemanticType>, stable: SymbolId -> StableSymbol, m: TypeMap, table: seq<CanonicalType>,
      symbols: SymbolMap, dm: IndexMap, dtypes: seq<SemanticType>, interner: map<SemanticType, TypeId>, id: TypeId)
    requires Written(types, stable, m, table) && Read(table, dm, symbols, dtypes, interner) && id in m
    requires ExprsFit(types)
    ensures id < |types| && m[id] in dm && dm[m[id]] < |dtypes|
    ensures var t, u := types[id], dtypes[dm[m[id]]];
            && Plain(u) && KindOf(u) == KindOf(t)
            && |Parts(u)| == |Parts(t)| && |SymbolsOf(u)| == |SymbolsOf(t)|
            && (forall k :: 0 <= k < |Parts(t)| ==>
                  Parts(t)[k] in m && m[Parts(t)[k]] in dm && Parts(u)[k] == dm[m[Parts(t)[k]]])
            && (forall i :: 0 <= i < |SymbolsOf(t)| ==>
                  stable(SymbolsOf(t)[i]) in symbols && SymbolsOf(u)[i] == Renamed(stable, symbols)(SymbolsOf(t)[i]))
  {
    hide Written, Read, CanonicalParts, CanonicalSymbols, Parts, SymbolsOf, KindOf, CanonicalKind, Plain, ExprFits;
    WriteLevel(types, stable, m, table, id);
    ReadLevel(table, dm, symbols, dtypes, interner, m[id]);
  }

  lemma ReadIsAcyclic(
      table: seq<CanonicalType>, dm: IndexMap, symbols: SymbolMap, dtypes: seq<SemanticType>,
      interner: map<SemanticType, TypeId>)
    requires Read(table, dm, symbols, dtypes, interner)
    ensures Acyclic(dtypes, ById)
  {
    hide Parts, IndexOk;
  }

  /** The round trip: what is read back for a type unfolds as the type did, its symbols renumbered,
      and field lists, lifetimes and inference variables forgotten. */
  lemma {:induction false} RoundTrip(
      types: seq<SemanticType>, rank: TypeId -> nat, stable: SymbolId -> StableSymbol, m: TypeMap,
      table: seq<CanonicalType>,
      symbols: SymbolMap, dm: IndexMap, dtypes: seq<SemanticType>, interner: map<SemanticType, TypeId>, id: TypeId)
    requires Acyclic(types, rank) && Written(types, stable, m, table) && Read(table, dm, symbols, dtypes, interner)
    requires ExprsFit(types) && id in m
    ensures Acyclic(dtypes, ById) && id < |types| && m[id] in dm && dm[m[id]] < |dtypes|
    ensures Unfold(dtypes, ById, Same, dm[m[id]]) == Unfold(types, rank, Renamed(stable, symbols), id)
    decreases rank(id)
  {
    hide Written, Read, Parts, SymbolsOf, KindOf, Plain, ExprsFit;
    ReadIsAcyclic(table, dm, symbols, dtypes, interner);
    OneLevel(types, stable, m, table, symbols, dm, dtypes, interner, id);
    var t, u := types[id], dtypes[dm[m[id]]];
    var read := Unfold(dtypes, ById, Same, dm[m[id]]);
    var written := Unfold(types, rank, Renamed(stable, symbols), id);
    forall k | 0 <= k < |Parts(t)| ensures read.parts[k] == written.parts[k] {
      RoundTrip(types, rank, stable, m, table, symbols, dm, dtypes, interner, Parts(t)[k]);
    }
    assert read.parts == written.parts;
    assert read.symbols == written.symbols;
  }

  /** Types that unfold alike under their stable names are read back as one. */
  lemma {:induction false} AlikeReadAsOne(
      types: seq<SemanticType>, rank: TypeId -> nat, stable: SymbolId -> StableSymbol, m: TypeMap,
      table: seq<CanonicalType>,
      symbols: SymbolMap, dm: IndexMap, dtypes: seq<SemanticType>, interner: map<SemanticType, TypeId>, a: TypeId,
      b: TypeId)
    requires Acyclic(types, rank) && Written(types, stable, m, table) && Read(table, dm, symbols, dtypes, interner)
    requires ExprsFit(types) && a in m && b in m && a < |types| && b < |types|
    requires Unfold(types, rank, stable, a) == Unfold(types, rank, stable, b)
    ensures m[a] in dm && m[b] in dm && dm[m[a]] == dm[m[b]]
    decreases rank(a)
  {
    OneLevel(types, stable, m, table, symbols, dm, dtypes, interner, a);
    OneLevel(types, stable, m, table, symbols, dm, dtypes, interner, b);
    var ta, tb := types[a], types[b];
    var ua, ub := dtypes[dm[m[a]]], dtypes[dm[m[b]]];
    var ra, rb := Unfold(types, rank, stable, a), Unfold(types, rank, stable, b);
    assert |ra.parts| == |Parts(ta)| && |rb.parts| == |Parts(tb)|;
    assert |ra.symbols| == |SymbolsOf(ta)| && |rb.symbols| == |SymbolsOf(tb)|;
    forall k | 0 <= k < |Parts(ta)| ensures Parts(ua)[k] == Parts(ub)[k] {
      assert ra.parts[k] == rb.parts[k];
      AlikeReadAsOne(types, rank, stable, m, table, symbols, dm, dtypes, interner, Parts(ta)[k], Parts(tb)[k]);
    }
    forall i | 0 <= i < |SymbolsOf(ta)| ensures SymbolsOf(ua)[i] == SymbolsOf(ub)[i] {
      assert ra.symbols[i] == rb.symbols[i];
    }
    PlainDetermined(ua, ub);
  }

  /** Sharing through both memo tables is sound and complete: with injective stable names, two
      types are read back as one exactly when they unfold alike. */
  lemma SharedIffAlike(
      types: seq<SemanticType>, rank: TypeId -> nat, stable: SymbolId -> StableSymbol, m: TypeMap,
      table: seq<CanonicalType>,
      symbols: SymbolMap, next: SymbolId, dm: IndexMap, dtypes: seq<SemanticType>, interner: map<SemanticType, TypeId>,
      a: TypeId, b: TypeId)
    requires Acyclic(types, rank) && Written(types, stable, m, table) && Read(table, dm, symbols, dtypes, interner)
    requires SymbolsOk(symbols, next) && ExprsFit(types) && a in m && b in m && a < |types| && b < |types|
    requires Injective(types, stable)
    ensures m[a] in dm && m[b] in dm
    ensures dm[m[a]] == dm[m[b]] <==> Unfold(types, rank, Same, a) == Unfold(types, rank, Same, b)
  {
    RoundTrip(types, rank, stable, m, table, symbols, dm, dtypes, interner, a);
    RoundTrip(types, rank, stable, m, table, symbols, dm, dtypes, interner, b);
    RenamingApart(types, rank, stable, a, b);
    if dm[m[a]] == dm[m[b]] {
      RenumberingApart(types, rank, stable, m, table, symbols, next, dm, dtypes, interner, a, b);
    }
    if Unfold(types, rank, Same, a) == Unfold(types, rank, Same, b) {
      AlikeReadAsOne(types, rank, stable, m, table, symbols, dm, dtypes, interner, a, b);
    }
  }

  /** Numbers tell written symbols apart exactly as their stable names do. */
  lemma {:induction false} RenumberingApart(
      types: seq<SemanticType>, rank: TypeId -> nat, stable: SymbolId -> StableSymbol, m: TypeMap,
      table: seq<CanonicalType>,
      symbols: SymbolMap, next: SymbolId, dm: IndexMap, dtypes: seq<SemanticType>, interner: map<SemanticType, TypeId>,
      a: TypeId, b: TypeId)
    requires Acyclic(types, rank) && Written(types, stable, m, table) && Read(table, dm, symbols, dtypes, interner)
    requires SymbolsOk(symbols, next) && ExprsFit(types) && a in m && b in m && a < |types| && b < |types|
    requires Unfold(types, rank, Renamed(stable, symbols), a) == Unfold(types, rank, Renamed(stable, symbols), b)
    ensures Unfold(types, rank, stable, a) == Unfold(types, rank, stable, b)
    decreases rank(a)
  {
    OneLevel(types, stable, m, table, symbols, dm, dtypes, interner, a);
    OneLevel(types, stable, m, table, symbols, dm, dtypes, interner, b);
    var ta, tb := types[a], types[b];
    var ra, rb := Unfold(types, rank, Renamed(stable, symbols), a), Unfold(types, rank, Renamed(stable, symbols), b);
    var sa, sb := Unfold(types, rank, stable, a), Unfold(types, rank, stable, b);
    assert |ra.parts| == |Parts(ta)| && |rb.parts| == |Parts(tb)|;
    assert |ra.symbols| == |SymbolsOf(ta)| && |rb.symbols| == |SymbolsOf(tb)|;
    forall k | 0 <= k < |Parts(ta)| ensures sa.parts[k] == sb.parts[k] {
      assert ra.parts[k] == rb.parts[k];
      RenumberingApart(types, rank, stable, m, table, symbols, next, dm, dtypes, interner, Parts(ta)[k], Parts(tb)[k]);
    }
    forall i | 0 <= i < |SymbolsOf(ta)| ensures sa.symbols[i] == sb.symbols[i] {
      assert ra.symbols[i] == rb.symbols[i];
    }
    assert sa.parts == sb.parts && sa.symbols == sb.symbols;
  }

  /** Writes types to a table and reads the table back. */
  method WriteAndRead(types: seq<SemanticType>, naming: Naming, ids: seq<TypeId>, ghost rank: TypeId -> nat)
    returns (dtypes: seq<SemanticType>, back: seq<TypeId>, symbols: SymbolMap)
    requires Acyclic(types, rank) && ExprsFit(types)
    requires forall k :: 0 <= k < |ids| ==> ids[k] < |types|
    ensures Acyclic(dtypes, ById) && |back| == |ids|
    ensures forall k :: 0 <= k < |ids| ==>
      && back[k] < |dtypes|
      && Unfold(dtypes, ById, Same, back[k]) == Unfold(types, rank, Renamed(StableOf(naming), symbols), ids[k])
    ensures TitlesApart(naming) && PathsApart(types, naming) ==> forall j, k :: 0 <= j < |ids| && 0 <= k < |ids| ==>
      (back[j] == back[k] <==> Unfold(types, rank, Same, ids[j]) == Unfold(types, rank, Same, ids[k]))
  {
    hide Written, Read, Unfold, Acyclic, ExprsFit, PartsInRange, TableAcyclic, TitlesApart, PathsApart, Injective,
         SymbolsOk;
    AcyclicInRange(types, rank);
    var m: TypeMap, table: seq<CanonicalType>, indices: seq<nat>;
    m, table, indices := Write(types, naming, ids);
    WrittenIsAcyclic(types, rank, StableOf(naming), m, table);
    var dm: IndexMap;
    var interner: map<SemanticType, TypeId>;
    ghost var next: SymbolId;
    dtypes, dm, symbols, interner, next := ReadBack(table, TableRank(m, rank));
    ReadIsAcyclic(table, dm, symbols, dtypes, interner);
    back := [];
    for k := 0 to |ids|
      invariant |back| == k
      invariant forall j :: 0 <= j < k ==> m[ids[j]] in dm && back[j] == dm[m[ids[j]]]
      invariant forall j :: 0 <= j < k ==> (
        && back[j] < |dtypes|
        && Unfold(dtypes, ById, Same, back[j]) == Unfold(types, rank, Renamed(StableOf(naming), symbols), ids[j]))
    {
      RoundTrip(types, rank, StableOf(naming), m, table, symbols, dm, dtypes, interner, ids[k]);
      back := back + [dm[indices[k]]];
    }
    if TitlesApart(naming) && PathsApart(types, naming) {
      NamesApart(types, naming);
      forall j, k | 0 <= j < |ids| && 0 <= k < |ids|
        ensures back[j] == back[k] <==> Unfold(types, rank, Same, ids[j]) == Unfold(types, rank, Same, ids[k])
      {
        SharedIffAlike(types, rank, StableOf(naming), m, table, symbols, next, dm, dtypes, interner, ids[j], ids[k]);
      }
    }
  }

  lemma AcyclicInRange(types: seq<SemanticType>, rank: TypeId -> nat)
    requires Acyclic(types, rank)
    ensures PartsInRange(types)
  {
    hide Parts;
  }

  method Write(types: seq<SemanticType>, naming: Naming, ids: seq<TypeId>)
    returns (m: TypeMap, table: seq<CanonicalType>, indices: seq<nat>)
    requires PartsInRange(types) && forall k :: 0 <= k < |ids| ==> ids[k] < |types|
    ensures Written(types, StableOf(naming), m, table) && |indices| == |ids|
    ensures forall k :: 0 <= k < |ids| ==> ids[k] in m && m[ids[k]] == indices[k]
  {
    hide TableOk;
    var builder := new MetadataBuilder(types, naming);
    indices := builder.ConvertAll(ids, {});
    m, table := builder.typeMap, builder.canonicalTypes;
  }

  method ReadBack(table: seq<CanonicalType>, ghost rank: nat -> nat)
    returns (dtypes: seq<SemanticType>, dm: IndexMap, symbols: SymbolMap, interner: map<SemanticType, TypeId>,
      ghost next: SymbolId)
    requires TableAcyclic(table, rank)
    ensures Read(table, dm, symbols, dtypes, interner) && SymbolsOk(symbols, next)
  {
    hide IndexOk, ContextOk, SymbolsOk, TableAcyclic;
    var decoder := new InterfaceDecoder(table, rank);
    decoder.DecodeTypes();
    dtypes, dm, symbols, interner := decoder.types, decoder.typeMap, decoder.stableToLocal, decoder.typeInterner;
    next := decoder.symbolIdAllocator;
  }
}
