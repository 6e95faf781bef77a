/** The per-place move states, the effective state of a place, and the join of two states. */
module MoveState {
  import opened Places

  datatype MoveState = Uninitialized | Live | Moved | Dropped | ConditionallyMoved | PartialMoved

  type PlaceMap = map<Place, MoveState>

  /** The states that make an ancestor only partly usable. */
  predicate Bad(v: MoveState) {
    v.Moved? || v.Dropped? || v.Uninitialized? || v.ConditionallyMoved?
  }

  /** What the nearest explicit entry at or above `p` says; `Live` when there is none. */
  function Inherited(m: PlaceMap, p: Place): MoveState
    decreases |p.projections|
  {
    if p in m then m[p]
    else if p.projections == [] then Live
    else Inherited(m, Parent(p))
  }

  predicate HasBad(m: PlaceMap, p: Place) {
    exists k | k in m :: Ancestor(p, k) && Bad(m[k])
  }

  /** The state a use of `p` meets. */
  function Effective(m: PlaceMap, p: Place): MoveState {
    var v := Inherited(m, p);
    if v == Live && HasBad(m, p) then PartialMoved else v
  }

  /** The order of the analysis: `ConditionallyMoved` on top, `Live` below `PartialMoved`. */
  predicate Le(a: MoveState, b: MoveState) {
    a == b || b == ConditionallyMoved || (a == Live && b == PartialMoved)
  }

  function Join(a: MoveState, b: MoveState): MoveState {
    match (a, b)
    case (Uninitialized, Uninitialized) => Uninitialized
    case (Dropped, Dropped) => Dropped
    case (Moved, Moved) => Moved
    case (ConditionallyMoved, _) => ConditionallyMoved
    case (_, ConditionallyMoved) => ConditionallyMoved
    case (Moved, _) => ConditionallyMoved
    case (_, Moved) => ConditionallyMoved
    case (Dropped, _) => ConditionallyMoved
    case (_, Dropped) => ConditionallyMoved
    case (Uninitialized, _) => ConditionallyMoved
    case (_, Uninitialized) => ConditionallyMoved
    case (PartialMoved, _) => PartialMoved
    case (_, PartialMoved) => PartialMoved
    case _ => Live
  }

  lemma JoinIsLeastUpperBound(a: MoveState, b: MoveState, c: MoveState)
    ensures Le(a, c) && Le(b, c) <==> Le(Join(a, b), c)
  {}

  // ----- Inherited and Effective ---------------------------------------------------------

  /** `k` is the entry that decides the state of `p`. */
  ghost predicate Decides(m: PlaceMap, k: Place, p: Place) {
    && k in m && Ancestor(k, p)
    && forall j :: j in m && Ancestor(j, p) ==> Ancestor(j, k)
  }

  lemma {:induction false} InheritedIs(m: PlaceMap, k: Place, p: Place)
    requires Decides(m, k, p)
    ensures Inherited(m, p) == m[k]
    decreases |p.projections|
  {
    if p in m {
      assert Ancestor(p, k);
      assert p == k;
    } else if p.projections == [] {
      assert false;
    } else {
      AncestorParent(k, p);
      forall j | j in m && Ancestor(j, Parent(p)) ensures Ancestor(j, k) {
        AncestorParent(j, p);
      }
      InheritedIs(m, k, Parent(p));
    }
  }

  lemma {:induction false} InheritedNone(m: PlaceMap, p: Place)
    requires forall j :: j in m ==> !Ancestor(j, p)
    ensures Inherited(m, p) == Live
    decreases |p.projections|
  {
    if p.projections != [] {
      forall j | j in m ensures !Ancestor(j, Parent(p)) {
        AncestorParent(j, p);
      }
      InheritedNone(m, Parent(p));
    }
  }

  lemma {:induction false} SomeDecides(m: PlaceMap, j: Place, p: Place) returns (k: Place)
    requires j in m && Ancestor(j, p)
    ensures Decides(m, k, p)
    decreases |p.projections|
  {
    if p in m {
      k := p;
    } else {
      AncestorParent(j, p);
      k := SomeDecides(m, j, Parent(p));
      AncestorParent(k, p);
      forall i | i in m && Ancestor(i, p) ensures Ancestor(i, k) { AncestorParent(i, p); }
    }
  }

  /** A place is live exactly when the nearest entry at or above it, if any, is live and nothing at or
      below it is lost, in part or under a condition; otherwise the nearest entry decides, or it is
      moved in part. */
  lemma StateMeans(m: PlaceMap, p: Place)
    ensures Effective(m, p) == Live <==>
      && (forall k :: Decides(m, k, p) ==> m[k] == Live)
      && (forall k :: k in m && Ancestor(p, k) ==> m[k] in {Live, PartialMoved})
    ensures forall k :: Decides(m, k, p) && m[k] != Live ==> Effective(m, p) == m[k]
    ensures Effective(m, p) != Live && (forall k :: Decides(m, k, p) ==> m[k] == Live) ==>
      Effective(m, p) == PartialMoved
  {
    if j :| j in m && Ancestor(j, p) {
      var k := SomeDecides(m, j, p);
      InheritedIs(m, k, p);
    } else {
      InheritedNone(m, p);
    }
    forall k | Decides(m, k, p) ensures Inherited(m, p) == m[k] { InheritedIs(m, k, p); }
  }

  /** Reading the state of a place: two scans of the table, in any order. */
  method GetPlaceState(m: PlaceMap, place: Place) returns (r: MoveState)
    ensures r == Effective(m, place)
  {
    var best: int := -1;
    var found := Live;
    ghost var nearest := place;
    var keys := m.Keys;
    while keys != {}
      invariant keys <= m.Keys
      invariant best == -1 ==> found == Live && forall j :: j in m && j !in keys ==> !Ancestor(j, place)
      invariant best >= 0 ==> nearest in m && Ancestor(nearest, place)
      invariant best >= 0 ==> best == |nearest.projections| && found == m[nearest]
      invariant best >= 0 ==> forall j :: j in m && j !in keys && Ancestor(j, place) ==> Ancestor(j, nearest)
      invariant best >= -1
      decreases keys
    {
      var k :| k in keys;
      keys := keys - {k};
      var above := IsAncestorOf(k, place);
      if above {
        if best >= 0 { AncestorsAreChain(k, nearest, place); }
        if |k.projections| > best {
          if best >= 0 {
            forall j | j in m && j !in keys && Ancestor(j, place) ensures Ancestor(j, k) {
              if j != k { AncestorTrans(j, nearest, k); }
            }
          }
          best, found, nearest := |k.projections|, m[k], k;
        }
      }
    }
    if best >= 0 {
      assert Decides(m, nearest, place);
      InheritedIs(m, nearest, place);
    } else {
      InheritedNone(m, place);
    }
    if found == Live {
      keys := m.Keys;
      while keys != {}
        invariant keys <= m.Keys
        invariant forall j :: j in m && j !in keys ==> !(Ancestor(place, j) && Bad(m[j]))
        decreases keys
      {
        var k :| k in keys;
        keys := keys - {k};
        var below := IsAncestorOf(place, k);
        if below && Bad(m[k]) {
          return PartialMoved;
        }
      }
    }
    return found;
  }

  // ----- merging -------------------------------------------------------------------------

  /** Handling one key of a merge, with the table as it stands. */
  function MergeKey(dest: PlaceMap, src: PlaceMap, k: Place): PlaceMap {
    if (k in dest && k in src && dest[k] == src[k]) || (k !in dest && k !in src) then dest
    else dest[k := Join(Effective(dest, k), Effective(src, k))]
  }

  function MergeFold(dest: PlaceMap, src: PlaceMap, order: seq<Place>): PlaceMap {
    if order == [] then dest
    else
      var last := |order| - 1;
      MergeKey(MergeFold(dest, src, order[..last]), src, order[last])
  }

  /** `order` lists the keys of both tables once each; a merge may meet any such order. */
  ghost predicate IsOrder(order: seq<Place>, dest: PlaceMap, src: PlaceMap) {
    && (forall i, j :: 0 <= i < j < |order| ==> order[i] != order[j])
    && (forall k :: k in order <==> k in dest || k in src)
  }

  /** `res` speaks for `src`: at every explicit entry of `res`, and at every bad entry of `src`. */
  ghost predicate Speaks(src: PlaceMap, res: PlaceMap, k: Place)
    requires k in res
  {
    Le(Effective(src, k), res[k]) || (res[k] == Live && Inherited(src, k) == Live)
  }

  ghost predicate Absorbs(src: PlaceMap, res: PlaceMap) {
    && (forall k :: k in res ==> Speaks(src, res, k))
    && (forall k :: k in src ==> k in res && (Bad(src[k]) ==> Bad(res[k])))
  }

  lemma {:induction false} InheritedRises(src: PlaceMap, res: PlaceMap, p: Place)
    requires Absorbs(src, res)
    ensures Le(Inherited(src, p), Inherited(res, p))
    ensures Inherited(src, p) == Live && HasBad(src, p) ==>
      Inherited(res, p) == Live || Le(PartialMoved, Inherited(res, p))
    decreases |p.projections|
  {
    if p in res {
      assert Speaks(src, res, p);
    } else if p.projections != [] {
      InheritedRises(src, res, Parent(p));
      if HasBad(src, p) {
        var b :| b in src && Ancestor(p, b) && Bad(src[b]);
        AncestorParent(p, p);
        AncestorTrans(Parent(p), p, b);
        assert HasBad(src, Parent(p));
      }
    }
  }

  /** A table that absorbs another is at or above it at every place, explicit or not. */
  lemma EffectiveRises(src: PlaceMap, res: PlaceMap, p: Place)
    requires Absorbs(src, res)
    ensures Le(Effective(src, p), Effective(res, p))
  {
    InheritedRises(src, res, p);
    if HasBad(src, p) {
      var b :| b in src && Ancestor(p, b) && Bad(src[b]);
      assert b in res && Bad(res[b]);
      assert HasBad(res, p);
    }
  }

  lemma MergeKeyAbsorbs(dest0: PlaceMap, m: PlaceMap, src: PlaceMap, k: Place)
    requires Absorbs(dest0, m)
    requires k in m || k in src
    ensures Absorbs(dest0, MergeKey(m, src, k))
    ensures k in MergeKey(m, src, k) && Speaks(src, MergeKey(m, src, k), k)
    ensures k in src && Bad(src[k]) ==> Bad(MergeKey(m, src, k)[k])
  {
    EffectiveRises(dest0, m, k);
    var r := MergeKey(m, src, k);
    forall j | j in r ensures Speaks(dest0, r, j) {
      if j != k { assert Speaks(dest0, m, j); }
    }
  }

  lemma {:induction false} MergeFoldAbsorbs(dest: PlaceMap, src: PlaceMap, order: seq<Place>)
    requires forall k :: k in order ==> k in dest || k in src
    ensures Absorbs(dest, MergeFold(dest, src, order))
    ensures forall k :: k in MergeFold(dest, src, order) <==> k in dest || k in order
    decreases |order|
  {
    if order != [] {
      var last := |order| - 1;
      MergeFoldAbsorbs(dest, src, order[..last]);
      MergeKeyAbsorbs(dest, MergeFold(dest, src, order[..last]), src, order[last]);
      assert order == order[..last] + [order[last]];
    }
  }

  /** The entry of a key that has been handled speaks for both tables. */
  ghost predicate Handled(src: PlaceMap, m: PlaceMap, k: Place) {
    k in m && Speaks(src, m, k) && (k in src && Bad(src[k]) ==> Bad(m[k]))
  }

  lemma {:induction false} MergeFoldHandles(dest: PlaceMap, src: PlaceMap, order: seq<Place>)
    requires forall i, j :: 0 <= i < j < |order| ==> order[i] != order[j]
    requires forall k :: k in order ==> k in dest || k in src
    ensures forall k :: k in order ==> Handled(src, MergeFold(dest, src, order), k)
    decreases |order|
  {
    if order != [] {
      var last := |order| - 1;
      var m := MergeFold(dest, src, order[..last]);
      MergeFoldHandles(dest, src, order[..last]);
      MergeFoldAbsorbs(dest, src, order[..last]);
      MergeKeyAbsorbs(dest, m, src, order[last]);
      forall k | k in order ensures Handled(src, MergeFold(dest, src, order), k) {
        if k != order[last] {
          assert k in order[..last];
          assert Handled(src, m, k);
        }
      }
    }
  }

  /** Whatever order the keys come in, the merged table is at or above both inputs at every
      place, and its keys are the keys of both. */
  lemma MergeIsUpperBound(dest: PlaceMap, src: PlaceMap, order: seq<Place>, p: Place)
    requires IsOrder(order, dest, src)
    ensures var m := MergeFold(dest, src, order);
      && Le(Effective(dest, p), Effective(m, p))
      && Le(Effective(src, p), Effective(m, p))
      && m.Keys == dest.Keys + src.Keys
  {
    MergeFoldAbsorbs(dest, src, order);
    MergeFoldHandles(dest, src, order);
    var m := MergeFold(dest, src, order);
    assert Absorbs(src, m) by {
      forall k | k in m ensures Handled(src, m, k) {
        assert k in order;
      }
    }
    EffectiveRises(dest, m, p);
    EffectiveRises(src, m, p);
  }

  /** Explicit entries only ascend. */
  lemma MergeAscends(dest: PlaceMap, src: PlaceMap, order: seq<Place>, k: Place)
    requires IsOrder(order, dest, src) && k in dest
    ensures k in MergeFold(dest, src, order) && Le(dest[k], MergeFold(dest, src, order)[k])
  {
    MergeFoldAbsorbs(dest, src, order);
    assert Speaks(dest, MergeFold(dest, src, order), k);
  }

  /** Merging a table with itself changes nothing. */
  lemma {:induction false} MergeWithSelf(m: PlaceMap, order: seq<Place>)
    ensures MergeFold(m, m, order) == m
    decreases |order|
  {
    if order != [] {
      MergeWithSelf(m, order[..|order| - 1]);
    }
  }

  // ----- how far the order of the keys matters -------------------------------------------

  /** Every entry of `m` at or below `p` is harmless. */
  ghost predicate Harmless(m: PlaceMap, p: Place) {
    forall k :: k in m && Ancestor(p, k) ==> !Bad(m[k])
  }

  lemma {:induction false} HarmlessInherited(m: PlaceMap, p: Place, q: Place)
    requires Harmless(m, p) && Ancestor(p, q) && !Bad(Inherited(m, p))
    ensures !Bad(Inherited(m, q))
    decreases |q.projections|
  {
    if q !in m && q.projections != [] && p != q {
      AncestorParent(p, q);
      HarmlessInherited(m, p, Parent(q));
    }
  }

  lemma {:induction false} MergeStaysHarmless(dest: PlaceMap, src: PlaceMap, order: seq<Place>, p: Place)
    requires Harmless(dest, p) && Harmless(src, p)
    requires p.projections == []
    ensures Harmless(MergeFold(dest, src, order), p)
    decreases |order|
  {
    if order != [] {
      var init := order[..|order| - 1];
      MergeStaysHarmless(dest, src, init, p);
      var m := MergeFold(dest, src, init);
      var k := order[|order| - 1];
      if Ancestor(p, k) {
        HarmlessInherited(m, p, k);
        HarmlessInherited(src, p, k);
        assert !Bad(Join(Effective(m, k), Effective(src, k)));
      }
    }
  }

  lemma {:induction false} UntouchedSoFar(dest: PlaceMap, src: PlaceMap, order: seq<Place>, p: Place)
    requires p !in order
    ensures p in MergeFold(dest, src, order) <==> p in dest
    ensures p in dest ==> MergeFold(dest, src, order)[p] == dest[p]
    decreases |order|
  {
    if order != [] {
      UntouchedSoFar(dest, src, order[..|order| - 1], p);
      assert order[|order| - 1] in order;
    }
  }

  lemma BadPersists(dest: PlaceMap, src: PlaceMap, order: seq<Place>, p: Place)
    requires forall k :: k in order ==> k in dest || k in src
    requires HasBad(dest, p)
    ensures HasBad(MergeFold(dest, src, order), p)
  {
    MergeFoldAbsorbs(dest, src, order);
    var b :| b in dest && Ancestor(p, b) && Bad(dest[b]);
    assert b in MergeFold(dest, src, order);
  }

  /** Keys handled before the local do not change the join taken at the local. */
  lemma JoinAtLocalStable(dest: PlaceMap, src: PlaceMap, order: seq<Place>, p: Place)
    requires forall k :: k in order ==> k in dest || k in src
    requires p.projections == [] && p !in order
    ensures Join(Effective(MergeFold(dest, src, order), p), Effective(src, p))
      == Join(Effective(dest, p), Effective(src, p))
  {
    var m := MergeFold(dest, src, order);
    UntouchedSoFar(dest, src, order, p);
    assert Inherited(m, p) == Inherited(dest, p);
    if HasBad(dest, p) {
      BadPersists(dest, src, order, p);
    } else if Inherited(dest, p) == Live && Inherited(src, p) == Live && !HasBad(src, p) {
      MergeStaysHarmless(dest, src, order, p);
      assert !HasBad(m, p);
    }
  }

  lemma MergeReachesLocal(dest: PlaceMap, src: PlaceMap, upTo: seq<Place>, p: Place)
    requires forall i, j :: 0 <= i < j < |upTo| ==> upTo[i] != upTo[j]
    requires forall k :: k in upTo ==> k in dest || k in src
    requires upTo != [] && upTo[|upTo| - 1] == p && p.projections == []
    requires !(p in dest && p in src && dest[p] == src[p])
    ensures p in MergeFold(dest, src, upTo)
    ensures MergeFold(dest, src, upTo)[p] == Join(Effective(dest, p), Effective(src, p))
  {
    var before := upTo[..|upTo| - 1];
    assert p !in before;
    JoinAtLocalStable(dest, src, before, p);
    UntouchedSoFar(dest, src, before, p);
  }

  /** At a whole local the merged entry is exactly the join of the two effective states,
      in whatever order the keys come. */
  lemma MergeAtLocalIsJoin(dest: PlaceMap, src: PlaceMap, order: seq<Place>, p: Place)
    requires IsOrder(order, dest, src)
    requires p.projections == [] && (p in dest || p in src)
    requires !(p in dest && p in src && dest[p] == src[p])
    ensures p in MergeFold(dest, src, order)
    ensures MergeFold(dest, src, order)[p] == Join(Effective(dest, p), Effective(src, p))
  {
    var i :| 0 <= i < |order| && order[i] == p;
    MergeReachesLocal(dest, src, order[..i + 1], p);
    MergeRest(dest, src, order, i + 1, p);
  }

  lemma {:induction false} MergeRest(dest: PlaceMap, src: PlaceMap, order: seq<Place>, i: nat, p: Place)
    requires i <= |order| && forall j :: i <= j < |order| ==> order[j] != p
    requires p in MergeFold(dest, src, order[..i])
    ensures p in MergeFold(dest, src, order)
    ensures MergeFold(dest, src, order)[p] == MergeFold(dest, src, order[..i])[p]
    decreases |order|
  {
    if i == |order| {
      assert order[..i] == order;
    } else {
      var init := order[..|order| - 1];
      assert init[..i] == order[..i];
      MergeRest(dest, src, init, i, p);
    }
  }

  // ----- when the order does not matter --------------------------------------------------

  predicate Differs(dest: PlaceMap, src: PlaceMap, k: Place) {
    (k in dest || k in src) && !(k in dest && k in src && dest[k] == src[k])
  }

  /** Of two keys at which the tables differ neither lies within the other. */
  ghost predicate DiffersApart(dest: PlaceMap, src: PlaceMap) {
    forall k, l :: Differs(dest, src, k) && Differs(dest, src, l) && Ancestor(k, l) ==> k == l
  }

  /** Only keys other than `k` at which the tables differ have changed. */
  ghost predicate ChangedElsewhere(dest: PlaceMap, src: PlaceMap, m: PlaceMap, k: Place) {
    forall j :: j == k || !Differs(dest, src, j) ==> (j in m <==> j in dest) && (j in m ==> m[j] == dest[j])
  }

  lemma EffectiveUnchanged(dest: PlaceMap, src: PlaceMap, m: PlaceMap, k: Place)
    requires DiffersApart(dest, src) && Differs(dest, src, k) && ChangedElsewhere(dest, src, m, k)
    ensures Effective(m, k) == Effective(dest, k)
  {
    InheritedAside(m, dest, k);
    if b :| b in m && Ancestor(k, b) && Bad(m[b]) { assert b in dest && dest[b] == m[b]; }
    if b :| b in dest && Ancestor(k, b) && Bad(dest[b]) { assert b in m && dest[b] == m[b]; }
  }

  lemma {:induction false} InheritedAside(m: PlaceMap, m': PlaceMap, p: Place)
    requires forall k :: Ancestor(k, p) ==> (k in m <==> k in m') && (k in m ==> m[k] == m'[k])
    ensures Inherited(m, p) == Inherited(m', p)
    decreases |p.projections|
  {
    if p !in m && p.projections != [] {
      forall k | Ancestor(k, Parent(p)) ensures Ancestor(k, p) {
        AncestorParent(k, p);
      }
      InheritedAside(m, m', Parent(p));
    }
  }

  /** What the merge makes of every key of `ks`, if no key influences another. */
  ghost predicate JoinsAt(dest: PlaceMap, src: PlaceMap, ks: seq<Place>, m: PlaceMap) {
    forall k :: if k in ks && Differs(dest, src, k) then k in m && m[k] == Join(Effective(dest, k), Effective(src, k))
                else (k in m <==> k in dest) && (k in m ==> m[k] == dest[k])
  }

  lemma {:induction false} MergeJoinsAll(dest: PlaceMap, src: PlaceMap, order: seq<Place>)
    requires DiffersApart(dest, src) && NoDuplicates(order)
    ensures JoinsAt(dest, src, order, MergeFold(dest, src, order))
    decreases |order|
  {
    if order != [] {
      var init, k := order[..|order| - 1], order[|order| - 1];
      MergeJoinsAll(dest, src, init);
      var m := MergeFold(dest, src, init);
      assert k !in init && forall j :: j in order <==> j in init || j == k;
      if Differs(dest, src, k) { EffectiveUnchanged(dest, src, m, k); }
    }
  }

  predicate NoDuplicates(order: seq<Place>) {
    forall i, j :: 0 <= i < j < |order| ==> order[i] != order[j]
  }

  /** Tables that differ only at places of which none lies within another are merged to the same
      table in every order, key by key. */
  lemma MergeIndependentOfOrder(dest: PlaceMap, src: PlaceMap, a: seq<Place>, b: seq<Place>)
    requires IsOrder(a, dest, src) && IsOrder(b, dest, src) && DiffersApart(dest, src)
    ensures MergeFold(dest, src, a) == MergeFold(dest, src, b)
    ensures JoinsAt(dest, src, a, MergeFold(dest, src, a))
  {
    hide MergeFold, Effective, DiffersApart, JoinsAt;
    MergeJoinsAll(dest, src, a);
    MergeJoinsAll(dest, src, b);
    SameJoins(dest, src, a, b, MergeFold(dest, src, a), MergeFold(dest, src, b));
  }

  lemma SameJoins(dest: PlaceMap, src: PlaceMap, a: seq<Place>, b: seq<Place>, m: PlaceMap, m': PlaceMap)
    requires JoinsAt(dest, src, a, m) && JoinsAt(dest, src, b, m') && forall k :: k in a <==> k in b
    ensures m == m'
  {
    hide Effective, Differs, Join;
    forall k ensures (k in m <==> k in m') && (k in m ==> m[k] == m'[k]) {
      assert k in a <==> k in b;
    }
  }

  /** Below a local the order does matter: the same two tables, two outcomes. */
  lemma MergeDependsOnOrder(x: nat) returns (dest: PlaceMap, src: PlaceMap, a: seq<Place>, b: seq<Place>)
    ensures IsOrder(a, dest, src) && IsOrder(b, dest, src)
    ensures MergeFold(dest, src, a) != MergeFold(dest, src, b)
  {
    var p := Place(x, []);
    var f := Place(x, [Field(0)]);
    assert Parent(f) == p;
    dest := map[p := Moved];
    src := map[p := Live, f := Moved];
    a, b := [p, f], [f, p];
    var a1 := MergeKey(dest, src, p);
    assert HasBad(src, p) by { assert f in src && Ancestor(p, f) && Bad(src[f]); }
    assert a1 == map[p := ConditionallyMoved];
    assert Inherited(a1, f) == ConditionallyMoved;
    assert a[..1] == [p] && a[..1][..0] == [];
    assert MergeFold(dest, src, []) == dest;
    assert MergeFold(dest, src, a[..1]) == a1;
    assert MergeFold(dest, src, a)[f] == ConditionallyMoved;
    var b1 := MergeKey(dest, src, f);
    assert Inherited(dest, f) == Moved;
    assert b1[f] == Moved;
    assert b[..1] == [f] && b[..1][..0] == [];
    assert MergeFold(dest, src, b[..1]) == b1;
    assert MergeFold(dest, src, b)[f] == Moved;
  }
}
