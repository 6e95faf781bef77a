/** Memory places: a local and a list of projections, ordered by the prefix relation. */
module Places {
  import opened Mvir

  datatype Projection = Field(idx: nat) | Deref | Index

  datatype Place = Place(local: ValueId, projections: seq<Projection>)

  predicate Ancestor(p: Place, q: Place) {
    p.local == q.local && p.projections <= q.projections
  }

  function Parent(p: Place): Place
    requires p.projections != []
  {
    Place(p.local, p.projections[..|p.projections| - 1])
  }

  function Projected(p: Place, proj: Projection): Place {
    Place(p.local, p.projections + [proj])
  }

  method IsAncestorOf(p: Place, q: Place) returns (b: bool)
    ensures b <==> Ancestor(p, q)
  {
    if p.local != q.local { return false; }
    if |p.projections| > |q.projections| { return false; }
    for i := 0 to |p.projections|
      invariant p.projections[..i] == q.projections[..i]
    {
      if p.projections[i] != q.projections[i] {
        assert !(p.projections <= q.projections);
        return false;
      }
    }
    return true;
  }

  lemma AncestorTrans(p: Place, q: Place, r: Place)
    requires Ancestor(p, q) && Ancestor(q, r)
    ensures Ancestor(p, r)
  {}

  lemma AncestorsAreChain(p: Place, q: Place, r: Place)
    requires Ancestor(p, r) && Ancestor(q, r)
    ensures Ancestor(p, q) || Ancestor(q, p)
  {
    if |p.projections| <= |q.projections| {
      assert p.projections == r.projections[..|p.projections|] == q.projections[..|p.projections|];
    } else {
      assert q.projections == r.projections[..|q.projections|] == p.projections[..|q.projections|];
    }
  }

  lemma AncestorParent(p: Place, q: Place)
    requires q.projections != []
    ensures Ancestor(Parent(q), q)
    ensures Ancestor(p, q) <==> p == q || Ancestor(p, Parent(q))
  {
    if Ancestor(p, q) && p != q {
      assert |p.projections| < |q.projections|;
      assert p.projections == q.projections[..|p.projections|] == Parent(q).projections[..|p.projections|];
    }
  }
}
