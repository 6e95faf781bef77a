/** Control-flow edge tables and dominator sets. */
module Dominators {
  import opened Mvir

  type EdgeMap = map<Label, seq<Label>>

  /** `succs` lists what each block branches to; `preds` lists exactly who branches to a label. */
  ghost predicate IsEdgeMaps(func: Function, preds: EdgeMap, succs: EdgeMap) {
    && succs.Keys == Labels(func)
    && (forall i :: 0 <= i < |func.blocks| ==> succs[func.blocks[i].name] == Successors(func.blocks[i]))
    && IsPreds(func, preds)
  }

  ghost predicate IsPreds(func: Function, preds: EdgeMap) {
    && Labels(func) <= preds.Keys
    && (forall x, y :: Edge(func, x, y) <==> y in preds && x in preds[y])
  }

  ghost predicate Listed(preds: EdgeMap, x: Label, y: Label) {
    y in preds && x in preds[y]
  }

  ghost predicate EdgeUpTo(func: Function, n: nat, x: Label, y: Label)
    requires n <= |func.blocks|
  {
    exists i :: 0 <= i < n && func.blocks[i].name == x && y in Successors(func.blocks[i])
  }

  lemma EdgeOneMore(func: Function, n: nat, x: Label, y: Label)
    requires n < |func.blocks|
    ensures EdgeUpTo(func, n + 1, x, y) <==>
      EdgeUpTo(func, n, x, y) || (x == func.blocks[n].name && y in Successors(func.blocks[n]))
  {
    if EdgeUpTo(func, n, x, y) {
      var i :| 0 <= i < n && func.blocks[i].name == x && y in Successors(func.blocks[i]);
      assert i < n + 1;
    }
  }

  method AddPred(preds0: EdgeMap, name: Label, ys: seq<Label>) returns (preds: EdgeMap)
    ensures preds0.Keys <= preds.Keys
    ensures forall x, y :: Listed(preds, x, y) <==> Listed(preds0, x, y) || (x == name && y in ys)
  {
    preds := preds0;
    for k := 0 to |ys|
      invariant preds0.Keys <= preds.Keys
      invariant forall x, y :: Listed(preds, x, y) <==> Listed(preds0, x, y) || (x == name && y in ys[..k])
    {
      var entry := if ys[k] in preds then preds[ys[k]] else [];
      preds := preds[ys[k] := entry + [name]];
      assert ys[..k + 1] == ys[..k] + [ys[k]];
    }
    assert ys[..|ys|] == ys;
  }

  method ComputeCfgEdges(func: Function) returns (preds: EdgeMap, succs: EdgeMap)
    requires DistinctLabels(func.blocks)
    ensures IsEdgeMaps(func, preds, succs)
  {
    preds, succs := map[], map[];
    for n := 0 to |func.blocks|
      invariant forall i :: 0 <= i < n ==> func.blocks[i].name in preds && func.blocks[i].name in succs
      invariant forall i :: 0 <= i < n ==> succs[func.blocks[i].name] == Successors(func.blocks[i])
      invariant succs.Keys <= Labels(func)
      invariant forall x, y :: Listed(preds, x, y) <==> EdgeUpTo(func, n, x, y)
    {
      var block := func.blocks[n];
      ghost var before := preds;
      if block.name !in preds { preds := preds[block.name := []]; }
      assert forall x, y :: Listed(preds, x, y) <==> Listed(before, x, y);
      var s := Successors(block);
      succs := succs[block.name := s];
      preds := AddPred(preds, block.name, s);
      forall x, y ensures Listed(preds, x, y) <==> EdgeUpTo(func, n + 1, x, y) {
        EdgeOneMore(func, n, x, y);
      }
    }
    forall x, y ensures Edge(func, x, y) <==> Listed(preds, x, y) {
      assert Listed(preds, x, y) <==> EdgeUpTo(func, |func.blocks|, x, y);
    }
  }

  // ----- what dominates what -------------------------------------------------------------

  /** Every walk from the entry to `b` passes `d`. */
  ghost predicate Dominates(func: Function, d: Label, b: Label)
    requires |func.blocks| > 0
  {
    forall path :: IsPathBetween(func, path, func.blocks[0].name, b) ==> d in path
  }

  /** The blocks on every walk from the entry to `b`: all blocks when there is no such walk. */
  ghost function DominatorSet(func: Function, b: Label): set<Label>
    requires |func.blocks| > 0
  {
    set d | d in Labels(func) && Dominates(func, d, b)
  }

  lemma UnreachableDominatedByAll(func: Function, b: Label)
    requires |func.blocks| > 0 && !Reachable(func, b)
    ensures DominatorSet(func, b) == Labels(func)
  {}

  lemma DominatesPred(func: Function, d: Label, x: Label, y: Label)
    requires |func.blocks| > 0
    requires Edge(func, x, y) && Dominates(func, d, y) && d != y
    ensures Dominates(func, d, x)
  {
    forall path | IsPathBetween(func, path, func.blocks[0].name, x) ensures d in path {
      assert IsPathBetween(func, path + [y], func.blocks[0].name, y);
      assert d in path + [y];
    }
  }

  type DomMap = map<Label, set<Label>>

  /** The intersection of the predecessors' sets, plus the block itself. */
  ghost predicate InMeet(doms: DomMap, ps: seq<Label>, d: Label) {
    forall x :: x in ps && x in doms ==> d in doms[x]
  }

  method Meet(doms: DomMap, ps: seq<Label>, all: set<Label>) returns (r: set<Label>)
    requires ps != [] && forall x :: x in ps ==> x in doms && doms[x] <= all
    ensures r <= all
    ensures forall d :: d in r <==> d in all && InMeet(doms, ps, d)
  {
    r := doms[ps[0]];
    for k := 1 to |ps|
      invariant r <= all
      invariant forall d :: d in r <==> d in all && InMeet(doms, ps[..k], d)
    {
      var p := doms[ps[k]];
      r := set d | d in r && d in p;
      assert ps[..k + 1] == ps[..k] + [ps[k]];
    }
    assert ps[..|ps|] == ps;
  }

  ghost predicate IsInner(func: Function, preds: EdgeMap, b: Label) {
    && b in Labels(func) && |func.blocks| > 0 && b != func.blocks[0].name
    && b in preds && preds[b] != []
  }

  /** Sets hold nothing but blocks, contain every true dominator, and can only shrink. */
  ghost predicate Descending(func: Function, preds: EdgeMap, doms: DomMap)
    requires |func.blocks| > 0
  {
    && doms.Keys == Labels(func)
    && doms[func.blocks[0].name] == {func.blocks[0].name}
    && (forall b :: b in doms ==> doms[b] <= Labels(func) && DominatorSet(func, b) <= doms[b])
    && (forall b, d :: IsInner(func, preds, b) && d in Labels(func) && (d == b || InMeet(doms, preds[b], d)) ==>
      d in doms[b])
  }

  ghost predicate Settled(doms: DomMap, preds: EdgeMap, b: Label)
    requires b in doms && b in preds
  {
    forall d :: d in doms[b] ==> d == b || InMeet(doms, preds[b], d)
  }

  lemma {:induction false} SettledIsExact(
      func: Function, preds: EdgeMap, doms: DomMap, path: seq<Label>, d: Label)
    requires |func.blocks| > 0 && IsPreds(func, preds) && Descending(func, preds, doms)
    requires forall b :: IsInner(func, preds, b) ==> Settled(doms, preds, b)
    requires IsPath(func, path) && path[0] == func.blocks[0].name
    requires path[|path| - 1] in doms && d in doms[path[|path| - 1]]
    ensures d in path
    decreases |path|
  {
    var b := path[|path| - 1];
    if |path| > 1 && b != func.blocks[0].name {
      var init := path[..|path| - 1];
      var x := path[|path| - 2];
      assert IsPath(func, init);
      assert Edge(func, x, b);
      assert IsInner(func, preds, b);
      assert Settled(doms, preds, b);
      if d != b {
        assert x in Labels(func);
        SettledIsExact(func, preds, doms, init, d);
      }
    }
  }

  lemma MeetIsSound(func: Function, preds: EdgeMap, doms: DomMap, b: Label, d: Label)
    requires |func.blocks| > 0 && IsPreds(func, preds) && Descending(func, preds, doms)
    requires IsInner(func, preds, b) && d in DominatorSet(func, b)
    ensures d == b || InMeet(doms, preds[b], d)
  {
    if d != b {
      forall x | x in preds[b] && x in doms ensures d in doms[x] {
        DominatesPred(func, d, x, b);
        assert d in DominatorSet(func, x);
      }
    }
  }

  lemma DominatorsAreLabels(func: Function, b: Label)
    requires |func.blocks| > 0
    ensures DominatorSet(func, b) <= Labels(func)
  {}

  lemma MeetGrowsBack(doms: DomMap, ps: seq<Label>, b: Label, s: set<Label>, d: Label)
    requires b in doms && s <= doms[b] && InMeet(doms[b := s], ps, d)
    ensures InMeet(doms, ps, d)
  {
    forall x | x in ps && x in doms ensures d in doms[x] {
      assert x in doms[b := s];
    }
  }

  lemma ShrinkKeeps(func: Function, preds: EdgeMap, doms: DomMap, b: Label, s: set<Label>)
    requires |func.blocks| > 0 && IsPreds(func, preds) && Descending(func, preds, doms)
    requires IsInner(func, preds, b)
    requires s <= Labels(func)
    requires forall d :: d in s <==> d in Labels(func) && (d == b || InMeet(doms, preds[b], d))
    ensures s <= doms[b]
    ensures Descending(func, preds, doms[b := s])
  {
    hide Dominates, DominatorSet, Labels, IsPreds;
    var doms' := doms[b := s];
    DominatorsAreLabels(func, b);
    forall d | d in DominatorSet(func, b) ensures d in s {
      MeetIsSound(func, preds, doms, b, d);
    }
    forall d | d in s ensures d in doms[b] {
      assert d == b || InMeet(doms, preds[b], d);
    }
    forall c, d | IsInner(func, preds, c) && d in Labels(func) && (d == c || InMeet(doms', preds[c], d))
      ensures d in doms'[c]
    {
      if d != c { MeetGrowsBack(doms, preds[c], b, s, d); }
    }
  }

  // ----- total size, which falls -------------------------------------------------------

  ghost function TotalSize(blocks: seq<BasicBlock>, doms: DomMap): nat
    requires forall i :: 0 <= i < |blocks| ==> blocks[i].name in doms
  {
    if blocks == [] then 0 else |doms[blocks[0].name]| + TotalSize(blocks[1..], doms)
  }

  lemma {:induction false} TotalSizeAside(blocks: seq<BasicBlock>, doms: DomMap, b: Label, s: set<Label>)
    requires forall i :: 0 <= i < |blocks| ==> blocks[i].name in doms && blocks[i].name != b
    ensures TotalSize(blocks, doms[b := s]) == TotalSize(blocks, doms)
  {
    if blocks != [] { TotalSizeAside(blocks[1..], doms, b, s); }
  }

  lemma {:induction false} TotalSizeFalls(blocks: seq<BasicBlock>, doms: DomMap, b: Label, s: set<Label>)
    requires DistinctLabels(blocks)
    requires forall i :: 0 <= i < |blocks| ==> blocks[i].name in doms
    requires exists i :: 0 <= i < |blocks| && blocks[i].name == b
    requires s < doms[b]
    ensures TotalSize(blocks, doms[b := s]) < TotalSize(blocks, doms)
  {
    var i :| 0 <= i < |blocks| && blocks[i].name == b;
    if i == 0 {
      assert doms[b] == s + (doms[b] - s);
      assert |doms[b] - s| > 0;
      TotalSizeAside(blocks[1..], doms, b, s);
    } else {
      assert blocks[1..][i - 1].name == b;
      TotalSizeFalls(blocks[1..], doms, b, s);
    }
  }

  // ----- the computation -----------------------------------------------------------------

  method InitDoms(func: Function, preds: EdgeMap) returns (doms: DomMap)
    requires DistinctLabels(func.blocks) && |func.blocks| > 0 && IsPreds(func, preds)
    ensures Descending(func, preds, doms)
  {
    var all := set i | 0 <= i < |func.blocks| :: func.blocks[i].name;
    var entry := func.blocks[0].name;
    doms := map[entry := {entry}];
    for i := 1 to |func.blocks|
      invariant forall j :: 0 <= j < i ==> func.blocks[j].name in doms
      invariant doms.Keys <= all
      invariant entry in doms && doms[entry] == {entry}
      invariant forall b :: b in doms && b != entry ==> doms[b] == all
    {
      doms := doms[func.blocks[i].name := all];
    }
    assert all == Labels(func);
    forall d | d in DominatorSet(func, entry) ensures d == entry {
      assert IsPathBetween(func, [entry], entry, entry);
      assert d in [entry];
    }
  }

  method ComputeDominators(func: Function, preds: EdgeMap) returns (doms: DomMap)
    requires DistinctLabels(func.blocks) && |func.blocks| > 0 && IsPreds(func, preds)
    ensures doms.Keys == Labels(func)
    ensures forall b :: b in doms ==> doms[b] == DominatorSet(func, b)
  {
    doms := InitDoms(func, preds);
    var changed := true;
    while changed
      invariant Descending(func, preds, doms)
      invariant !changed ==> forall b :: IsInner(func, preds, b) ==> Settled(doms, preds, b)
      decreases TotalSize(func.blocks, doms), changed
    {
      doms, changed := SweepDoms(func, preds, doms);
    }
    forall b | b in doms ensures doms[b] == DominatorSet(func, b) {
      ExactAt(func, preds, doms, b);
    }
  }

  lemma ExactAt(func: Function, preds: EdgeMap, doms: DomMap, b: Label)
    requires |func.blocks| > 0 && IsPreds(func, preds) && Descending(func, preds, doms)
    requires forall c :: IsInner(func, preds, c) ==> Settled(doms, preds, c)
    requires b in doms
    ensures doms[b] == DominatorSet(func, b)
  {
    forall d | d in doms[b] ensures d in DominatorSet(func, b) {
      forall path | IsPathBetween(func, path, func.blocks[0].name, b) ensures d in path {
        SettledIsExact(func, preds, doms, path, d);
      }
    }
  }

  /** One pass over the blocks after the entry. */
  method SweepDoms(func: Function, preds: EdgeMap, doms0: DomMap) returns (doms: DomMap, changed: bool)
    requires DistinctLabels(func.blocks) && |func.blocks| > 0 && IsPreds(func, preds)
    requires Descending(func, preds, doms0)
    ensures Descending(func, preds, doms)
    ensures !changed ==> doms == doms0 && forall b :: IsInner(func, preds, b) ==> Settled(doms, preds, b)
    ensures changed ==> TotalSize(func.blocks, doms) < TotalSize(func.blocks, doms0)
  {
    doms, changed := doms0, false;
    for i := 1 to |func.blocks|
      invariant Descending(func, preds, doms)
      invariant if changed then TotalSize(func.blocks, doms) < TotalSize(func.blocks, doms0) else doms == doms0
      invariant !changed ==> forall j :: 1 <= j < i ==> BlockSettled(func, preds, doms, func.blocks[j].name)
    {
      var moved: bool;
      doms, moved := UpdateBlock(func, preds, doms, func.blocks[i].name);
      changed := changed || moved;
    }
    if !changed {
      forall b | IsInner(func, preds, b) ensures Settled(doms, preds, b) {
        var j :| 0 <= j < |func.blocks| && func.blocks[j].name == b;
        assert BlockSettled(func, preds, doms, func.blocks[j].name);
      }
    }
  }

  ghost predicate BlockSettled(func: Function, preds: EdgeMap, doms: DomMap, b: Label) {
    IsInner(func, preds, b) ==> b in doms && Settled(doms, preds, b)
  }

  method UpdateBlock(func: Function, preds: EdgeMap, doms0: DomMap, name: Label) returns (doms: DomMap, changed: bool)
    requires DistinctLabels(func.blocks) && |func.blocks| > 0 && IsPreds(func, preds)
    requires Descending(func, preds, doms0)
    requires name in Labels(func) && name != func.blocks[0].name
    ensures Descending(func, preds, doms)
    ensures if changed then TotalSize(func.blocks, doms) < TotalSize(func.blocks, doms0) else doms == doms0
    ensures !changed ==> BlockSettled(func, preds, doms, name)
  {
    doms, changed := doms0, false;
    var ps := preds[name];
    if ps != [] {
      PredsAreBlocks(func, preds, name);
      var meet := Meet(doms, ps, doms.Keys);
      var newDom := meet + {name};
      ShrinkKeeps(func, preds, doms, name, newDom);
      if doms[name] != newDom {
        TotalSizeFalls(func.blocks, doms, name, newDom);
        doms := doms[name := newDom];
        changed := true;
      }
    }
  }

  lemma PredsAreBlocks(func: Function, preds: EdgeMap, y: Label)
    requires IsPreds(func, preds) && y in preds
    ensures forall x :: x in preds[y] ==> x in Labels(func)
  {
    forall x | x in preds[y] ensures x in Labels(func) {
      assert Edge(func, x, y);
    }
  }
}
