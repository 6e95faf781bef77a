/** The dispatch chain of a resume function, and the resume function as a whole. */
module AsyncResume {
  import opened Wrappers
  import opened Mvir
  import opened Decimal
  import opened AsyncMachine
  import opened AsyncLowering

  function DispatchLabel(k: nat): Label {
    "dispatch_state_" + ToText(k)
  }

  const ENTRY_DISPATCH: Label := "entry_dispatch"
  const UNREACHABLE_DISPATCH: Label := "unreachable_dispatch"

  /** Compares the state, loaded as value `state`, with `k`. */
  function EqState(state: ValueId, k: nat): Instruction {
    Binary(Eq, Value(state), Number(ToText(k)))
  }

  /** The state's address and the state, then its comparisons with 0 to `n`. */
  function DispatchValues(base: nat, n: nat): seq<Instruction> {
    [FieldPtr(Value(0), STATE_FIELD), Load(Value(base))] + seq(n + 1, k requires 0 <= k => EqState(base + 1, k))
  }

  function EntryLabel(func: Function): Label {
    if func.blocks == [] then "entry" else func.blocks[0].name
  }

  function EntryDispatch(func: Function, base: nat): BasicBlock {
    BasicBlock(ENTRY_DISPATCH, Ids(0, FirstId(func)) + Ids(base, 3),
               Some(CondBr(Value(base + 2), EntryLabel(func), DispatchLabel(1))))
  }

  function NextDispatch(k: nat, n: nat): Label {
    if k < n then DispatchLabel(k + 1) else UNREACHABLE_DISPATCH
  }

  function DispatchBlock(base: nat, k: nat, n: nat): BasicBlock {
    BasicBlock(DispatchLabel(k), [base + 2 + k], Some(CondBr(Value(base + 2 + k), ResumeLabel(k), NextDispatch(k, n))))
  }

  /** The blocks for states 1 to `n`. */
  function DispatchChain(base: nat, n: nat): seq<BasicBlock> {
    seq(n, i requires 0 <= i => DispatchBlock(base, i + 1, n))
  }

  function DispatchBlocks(func: Function, base: nat, n: nat): seq<BasicBlock> {
    [EntryDispatch(func, base)] + DispatchChain(base, n) + [BasicBlock(UNREACHABLE_DISPATCH, [], Some(Unreachable))]
  }

  /** Without awaits the entry leads straight to the first block. */
  function DirectEntry(func: Function): BasicBlock {
    BasicBlock(ENTRY_DISPATCH, Ids(0, FirstId(func)), Some(Br(EntryLabel(func))))
  }

  function Front(func: Function, c: Cursor): seq<BasicBlock> {
    if c.awaits == [] then [DirectEntry(func)] else DispatchBlocks(func, |c.values|, |c.awaits|)
  }

  /** The resume function built around translated blocks. */
  function Resume(func: Function, c: Cursor): Function {
    Function(1, Front(func, c) + c.done,
             if c.awaits == [] then c.values else c.values + DispatchValues(|c.values|, |c.awaits|))
  }

  method BuildDispatch(func: Function, c: Cursor) returns (blocks: seq<BasicBlock>, values: seq<Instruction>)
    ensures blocks == Front(func, c) && values == Resume(func, c).values
  {
    hide ToText, FirstId;
    if c.awaits == [] {
      return [DirectEntry(func)], c.values;
    }
    var base, n := |c.values|, |c.awaits|;
    values := c.values + [FieldPtr(Value(0), STATE_FIELD), Load(Value(base)), EqState(base + 1, 0)];
    blocks := [EntryDispatch(func, base)];
    for k := 1 to n + 1
      invariant |blocks| == k && blocks[0] == EntryDispatch(func, base)
      invariant forall i :: 1 <= i < k ==> blocks[i] == DispatchBlock(base, i, n)
      invariant |values| == base + 2 + k && values[..base] == c.values
      invariant values[base] == FieldPtr(Value(0), STATE_FIELD) && values[base + 1] == Load(Value(base))
      invariant forall i :: base + 2 <= i < |values| ==> values[i] == EqState(base + 1, i - base - 2)
    {
      var eq := |values|;
      values := values + [EqState(base + 1, k)];
      blocks := blocks + [BasicBlock(DispatchLabel(k), [eq],
        Some(CondBr(Value(eq), ResumeLabel(k), NextDispatch(k, n))))];
    }
    blocks := blocks + [BasicBlock(UNREACHABLE_DISPATCH, [], Some(Unreachable))];
    ChainIs(func, base, n, blocks);
    assert values == c.values + DispatchValues(base, n);
  }

  lemma ChainIs(func: Function, base: nat, n: nat, blocks: seq<BasicBlock>)
    requires |blocks| == n + 2 && blocks[0] == EntryDispatch(func, base)
    requires forall i :: 1 <= i <= n ==> blocks[i] == DispatchBlock(base, i, n)
    requires blocks[n + 1] == BasicBlock(UNREACHABLE_DISPATCH, [], Some(Unreachable))
    ensures blocks == DispatchBlocks(func, base, n)
  {
    hide EntryDispatch, DispatchBlock;
    var all := DispatchBlocks(func, base, n);
    assert |all| == |blocks|;
    forall i | 0 <= i < |blocks| ensures blocks[i] == all[i] {
      if 1 <= i <= n { assert all[i] == DispatchChain(base, n)[i - 1]; }
    }
  }

  /** The resume function of `func`: a dispatch in front of its translation. */
  method LowerResume(func: Function) returns (res: Function)
    requires Lowerable(func)
    ensures exists c :: CameToBlock(func, c, |func.blocks|) && res == Resume(func, c)
  {
    hide Lowerable, CameToBlock, Front;
    var translated := TranslateBlocks(func);
    var blocks, values := BuildDispatch(func, translated);
    res := Function(1, blocks + translated.done, values);
  }

  // ----- labels --------------------------------------------------------------------------

  /** No block has a name that lowering makes up for the dispatch. */
  ghost predicate DispatchLabelsFresh(func: Function) {
    forall b :: 0 <= b < |func.blocks| ==>
      && func.blocks[b].name != ENTRY_DISPATCH && func.blocks[b].name != UNREACHABLE_DISPATCH
      && forall k :: 1 <= k <= AwaitsTo(func, |func.blocks|) ==> func.blocks[b].name != DispatchLabel(k)
  }

  predicate IsFrontLabel(name: Label, n: nat) {
    name == ENTRY_DISPATCH || name == UNREACHABLE_DISPATCH || exists k :: 1 <= k <= n && name == DispatchLabel(k)
  }

  lemma FrontLabels(func: Function, c: Cursor, i: nat)
    requires i < |Front(func, c)|
    ensures IsFrontLabel(Front(func, c)[i].name, |c.awaits|)
    ensures c.awaits != [] && 1 <= i <= |c.awaits| ==> Front(func, c)[i].name == DispatchLabel(i)
    ensures i == 0 ==> Front(func, c)[i].name == ENTRY_DISPATCH
    ensures i == |c.awaits| + 1 ==> Front(func, c)[i].name == UNREACHABLE_DISPATCH
  {
    hide DispatchLabel;
    if c.awaits != [] && 1 <= i <= |c.awaits| {
      assert Front(func, c)[i] == DispatchChain(|c.values|, |c.awaits|)[i - 1];
    }
  }

  lemma LabelsStartApart(k: nat)
    ensures DispatchLabel(k)[0] == 'd' && ResumeLabel(k)[0] == 'r' && ENTRY_DISPATCH[0] == 'e'
      && UNREACHABLE_DISPATCH[0] == 'u'
    ensures |DispatchLabel(k)| > 0 && |ResumeLabel(k)| > 0
  {
    hide ToText;
  }

  lemma FrontDistinct(func: Function, c: Cursor)
    ensures DistinctLabels(Front(func, c))
  {
    var front := Front(func, c);
    forall i, j | 0 <= i < j < |front| ensures front[i].name != front[j].name {
      FrontLabels(func, c, i);
      FrontLabels(func, c, j);
      LabelsStartApart(i);
      LabelsStartApart(j);
      TextsDiffer("dispatch_state_", i, j);
    }
  }

  /** Source names and resume labels are not dispatch labels. */
  lemma TranslatedApart(func: Function, c: Cursor, name: Label, other: Label)
    requires DispatchLabelsFresh(func) && |c.awaits| == AwaitsTo(func, |func.blocks|)
    requires Named(func, name, |func.blocks|, |c.awaits|) && IsFrontLabel(other, |c.awaits|)
    ensures name != other
  {
    hide DispatchLabel, ResumeLabel;
    if k :| 1 <= k <= |c.awaits| && name == ResumeLabel(k) {
      LabelsStartApart(k);
      if k' :| 1 <= k' <= |c.awaits| && other == DispatchLabel(k') {
        LabelsStartApart(k');
      }
    }
  }

  lemma ResumeDistinct(func: Function, c: Cursor)
    requires DispatchLabelsFresh(func) && CameToBlock(func, c, |func.blocks|)
    ensures DistinctLabels(Resume(func, c).blocks)
  {
    hide Mapped, Laid, Front, DispatchLabelsFresh, Named, IsFrontLabel, AwaitsTo;
    FrontDistinct(func, c);
    var front, blocks := Front(func, c), Resume(func, c).blocks;
    forall i, j | 0 <= i < j < |blocks| ensures blocks[i].name != blocks[j].name {
      if j < |front| {
        assert blocks[i] == front[i] && blocks[j] == front[j];
      } else if i >= |front| {
        assert blocks[i] == c.done[i - |front|] && blocks[j] == c.done[j - |front|];
      } else {
        assert blocks[i] == front[i] && blocks[j] == c.done[j - |front|];
        FrontLabels(func, c, i);
        assert Named(func, c.done[j - |front|].name, |func.blocks|, |c.awaits|);
        TranslatedApart(func, c, c.done[j - |front|].name, front[i].name);
      }
    }
  }
}
