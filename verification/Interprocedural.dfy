/** Effect summaries of all functions of a module, by a worklist over the reverse call graph.

    Inference of one function is a parameter here: any function of the callee and of the table
    entries of the functions it calls directly. */
module Interprocedural {
  import opened Wrappers
  import opened Mvir
  import opened Effects

  type Name = string
  type Table = map<Name, Summary>

  /** A function whose result type holds no reference returns no borrow. */
  datatype Callable = Callable(name: Name, isExtern: bool, returnsBorrow: bool, body: Function)

  type Inference = (Callable, Table) -> Summary

  predicate CallsIn(values: seq<Instruction>, insts: seq<ValueId>, callee: Name) {
    exists k :: 0 <= k < |insts| && insts[k] < |values| && IsCallTo(values[insts[k]], callee)
  }

  predicate IsCallTo(inst: Instruction, callee: Name) {
    inst.CallDirect? && inst.callee == callee
  }

  predicate Calls(f: Callable, callee: Name) {
    exists b :: 0 <= b < |f.body.blocks| && CallsIn(f.body.values, f.body.blocks[b].insts, callee)
  }

  function Visible(f: Callable, table: Table): Table {
    map c | c in table && Calls(f, c) :: table[c]
  }

  function Infer(inf: Inference, f: Callable, table: Table): Summary {
    inf(f, Visible(f, table))
  }

  // ----- the tables the worklist runs on -------------------------------------------------

  /** A function is looked up by name; the last one of that name is found. */
  function FunctionsByName(m: seq<Callable>): (fMap: map<Name, Callable>)
    ensures forall i :: 0 <= i < |m| ==> m[i].name in fMap
    ensures forall n :: n in fMap ==> fMap[n] in m && fMap[n].name == n
  {
    if m == [] then map[] else FunctionsByName(m[..|m| - 1])[m[|m| - 1].name := m[|m| - 1]]
  }

  type Callers = map<Name, seq<Name>>

  predicate Lists(callers: Callers, callee: Name, caller: Name) {
    callee in callers && caller in callers[callee]
  }

  /** `callers` is the call graph reversed. */
  ghost predicate Reversed(m: seq<Callable>, callers: Callers) {
    forall callee, caller ::
      Lists(callers, callee, caller) <==> exists i :: 0 <= i < |m| && m[i].name == caller && Calls(m[i], callee)
  }

  method AddCalls(values: seq<Instruction>, insts: seq<ValueId>, caller: Name, callers0: Callers)
    returns (callers: Callers)
    requires forall k :: 0 <= k < |insts| ==> insts[k] < |values|
    ensures forall c, n :: Lists(callers, c, n) <==> Lists(callers0, c, n) || (n == caller && CallsIn(values, insts, c))
  {
    callers := callers0;
    for k := 0 to |insts|
      invariant forall c, n ::
        Lists(callers, c, n) <==> Lists(callers0, c, n) || (n == caller && CallsIn(values, insts[..k], c))
    {
      ghost var was := callers;
      var inst := values[insts[k]];
      if inst.CallDirect? {
        var c := inst.callee;
        callers := callers[c := (if c in callers then callers[c] else []) + [caller]];
      }
      CallsInSnoc(values, insts, k);
      assert forall c, n :: Lists(callers, c, n) <==> Lists(was, c, n) || (n == caller && IsCallTo(inst, c));
    }
    assert insts[..|insts|] == insts;
  }

  lemma CallsInSnoc(values: seq<Instruction>, insts: seq<ValueId>, k: nat)
    requires k < |insts| && insts[k] < |values|
    ensures forall c :: CallsIn(values, insts[..k + 1], c) <==>
      CallsIn(values, insts[..k], c) || IsCallTo(values[insts[k]], c)
  {
    forall c ensures CallsIn(values, insts[..k + 1], c) <==>
      CallsIn(values, insts[..k], c) || IsCallTo(values[insts[k]], c) {
      if CallsIn(values, insts[..k], c) {
        var j :| 0 <= j < k && insts[..k][j] < |values| && IsCallTo(values[insts[..k][j]], c);
        assert insts[..k + 1][j] == insts[j];
      }
      if IsCallTo(values[insts[k]], c) {
        assert insts[..k + 1][k] == insts[k];
      }
      if CallsIn(values, insts[..k + 1], c) && !IsCallTo(values[insts[k]], c) {
        var j :| 0 <= j < k + 1 && insts[..k + 1][j] < |values| && IsCallTo(values[insts[..k + 1][j]], c);
        assert insts[..k][j] == insts[j];
      }
    }
  }

  /** What block `0` up to `b` of `f` calls. */
  ghost predicate CallsBefore(f: Callable, b: nat, callee: Name)
    requires b <= |f.body.blocks|
  {
    exists j :: 0 <= j < b && CallsIn(f.body.values, f.body.blocks[j].insts, callee)
  }

  ghost predicate InRange(f: Callable) {
    forall b, v :: 0 <= b < |f.body.blocks| && v in f.body.blocks[b].insts ==> v < |f.body.values|
  }

  method AddCallsOf(f: Callable, callers0: Callers) returns (callers: Callers)
    requires InRange(f)
    ensures forall c, n :: Lists(callers, c, n) <==> Lists(callers0, c, n) || (n == f.name && Calls(f, c))
  {
    callers := callers0;
    for b := 0 to |f.body.blocks|
      invariant forall c, n ::
        Lists(callers, c, n) <==> Lists(callers0, c, n) || (n == f.name && CallsBefore(f, b, c))
    {
      var insts := f.body.blocks[b].insts;
      forall k | 0 <= k < |insts| ensures insts[k] < |f.body.values| {
        assert insts[k] in insts;
      }
      callers := AddCalls(f.body.values, insts, f.name, callers);
      assert forall c :: CallsBefore(f, b + 1, c) <==> CallsBefore(f, b, c) || CallsIn(f.body.values, insts, c);
    }
    assert forall c :: CallsBefore(f, |f.body.blocks|, c) <==> Calls(f, c);
  }

  method BuildMaps(m: seq<Callable>) returns (fMap: map<Name, Callable>, callers: Callers)
    requires forall i :: 0 <= i < |m| ==> InRange(m[i])
    ensures fMap == FunctionsByName(m) && Reversed(m, callers)
  {
    fMap, callers := map[], map[];
    for i := 0 to |m|
      invariant fMap == FunctionsByName(m[..i])
      invariant Reversed(m[..i], callers)
    {
      assert m[..i + 1][..i] == m[..i];
      fMap := fMap[m[i].name := m[i]];
      ghost var was := callers;
      callers := AddCallsOf(m[i], callers);
      ReversedSnoc(m, i, was, callers);
    }
    assert m[..|m|] == m;
  }

  lemma ReversedSnoc(m: seq<Callable>, i: nat, was: Callers, callers: Callers)
    requires i < |m| && Reversed(m[..i], was)
    requires forall c, n :: Lists(callers, c, n) <==> Lists(was, c, n) || (n == m[i].name && Calls(m[i], c))
    ensures Reversed(m[..i + 1], callers)
  {
    var longer := m[..i + 1];
    forall c, n
      ensures Lists(callers, c, n) <==> exists k :: 0 <= k < |longer| && longer[k].name == n && Calls(longer[k], c)
    {
      if Lists(was, c, n) {
        var k :| 0 <= k < |m[..i]| && m[..i][k].name == n && Calls(m[..i][k], c);
        assert longer[k] == m[..i][k];
      }
      if n == m[i].name && Calls(m[i], c) {
        assert longer[i] == m[i];
      }
      if k :| 0 <= k < |longer| && longer[k].name == n && Calls(longer[k], c) {
        assert k < i ==> longer[k] == m[..i][k];
      }
    }
  }

  // ----- the worklist as a state machine -------------------------------------------------

  /** What does not change while the worklist runs. */
  datatype Setup = Setup(fMap: map<Name, Callable>, inf: Inference)

  /** `pending` is what is left of the sweep under way, `worklist` what the next one gets. */
  datatype Run = Run(table: Table, worklist: set<Name>, pending: set<Name>, changed: bool)

  predicate Live(su: Setup, n: Name) {
    n in su.fMap && !su.fMap[n].isExtern
  }

  function InferNamed(su: Setup, n: Name, table: Table): Summary
    requires n in su.fMap
  {
    Infer(su.inf, su.fMap[n], table)
  }

  function CallersOf(callers: Callers, n: Name): set<Name> {
    if n in callers then set c | c in callers[n] else {}
  }

  /** One function of the sweep: its summary is inferred anew, and if it changed the callers go
      on the next worklist. */
  function Process(su: Setup, callers: Callers, r: Run, n: Name): Run
    requires Live(su, n) ==> n in r.table
  {
    var rest := r.(pending := r.pending - {n});
    if !Live(su, n) || r.table[n] == InferNamed(su, n, r.table) then rest
    else rest.(table := r.table[n := InferNamed(su, n, r.table)], changed := true, worklist :=
      r.worklist + CallersOf(callers, n))
  }

  function NextSweep(r: Run): Run {
    Run(r.table, {}, r.worklist, false)
  }

  /** Sweeps take their functions in any order. */
  ghost predicate Step(su: Setup, callers: Callers, r: Run, r': Run) {
    || (exists n :: n in r.pending && (Live(su, n) ==> n in r.table) && r' == Process(su, callers, r, n))
    || (r.pending == {} && r.changed && r' == NextSweep(r))
  }

  predicate Exited(r: Run) {
    r.pending == {} && !r.changed
  }

  /** The summary stored for `n` is what inference gives for it on the stored table. */
  predicate Fresh(su: Setup, table: Table, n: Name) {
    Live(su, n) ==> n in table && table[n] == InferNamed(su, n, table)
  }

  ghost predicate Consistent(su: Setup, table: Table) {
    forall n :: Fresh(su, table, n)
  }

  /** Every caller, in the module, of a function is listed for it. */
  ghost predicate KnowsCallers(su: Setup, callers: Callers) {
    forall n, c :: Live(su, n) && Calls(su.fMap[n], c) ==> n in CallersOf(callers, c)
  }

  lemma SetupKnowsCallers(m: seq<Callable>, su: Setup, callers: Callers)
    requires su.fMap == FunctionsByName(m) && Reversed(m, callers)
    ensures KnowsCallers(su, callers)
  {
    forall n, c | Live(su, n) && Calls(su.fMap[n], c) ensures n in CallersOf(callers, c) {
      var i :| 0 <= i < |m| && m[i] == su.fMap[n];
      assert Lists(callers, c, n);
    }
  }

  /** Whatever is not fresh is still to be visited. */
  ghost predicate Tracked(su: Setup, callers: Callers, r: Run) {
    && KnowsCallers(su, callers)
    && (forall n :: Live(su, n) ==> n in r.table)
    && (forall n :: Fresh(su, r.table, n) || n in r.pending || n in r.worklist)
    && (!r.changed ==> r.worklist == {})
  }

  /** Inference of a function sees no other table entry than those of what it calls. */
  lemma InferDepends(su: Setup, n: Name, c: Name, table: Table, s: Summary)
    requires Live(su, n) && !Calls(su.fMap[n], c)
    ensures InferNamed(su, n, table[c := s]) == InferNamed(su, n, table)
  {
    assert Visible(su.fMap[n], table[c := s]) == Visible(su.fMap[n], table);
  }

  lemma ProcessKeepsTracked(su: Setup, callers: Callers, r: Run, n: Name)
    requires Tracked(su, callers, r) && n in r.pending
    ensures Tracked(su, callers, Process(su, callers, r, n))
  {
    var r' := Process(su, callers, r, n);
    forall k ensures Fresh(su, r'.table, k) || k in r'.pending || k in r'.worklist {
      if Live(su, k) && r'.table != r.table && !Calls(su.fMap[k], n) {
        InferDepends(su, k, n, r.table, InferNamed(su, n, r.table));
      }
      assert Fresh(su, r.table, k) || k in r.pending || k in r.worklist;
    }
  }

  lemma StepKeepsTracked(su: Setup, callers: Callers, r: Run, r': Run)
    requires Tracked(su, callers, r) && Step(su, callers, r, r')
    ensures Tracked(su, callers, r')
    ensures forall n :: !Live(su, n) ==>
      (n in r'.table <==> n in r.table) && (n in r.table ==> r'.table[n] == r.table[n])
  {
    if n :| n in r.pending && (Live(su, n) ==> n in r.table) && r' == Process(su, callers, r, n) {
      ProcessKeepsTracked(su, callers, r, n);
    }
  }

  ghost predicate IsRun(su: Setup, callers: Callers, trace: seq<Run>) {
    && |trace| > 0
    && forall k :: 0 <= k < |trace| - 1 ==> Step(su, callers, trace[k], trace[k + 1])
  }

  /** The state before the first sweep: everything is on the worklist. */
  ghost predicate IsStart(su: Setup, r: Run) {
    && r.worklist == su.fMap.Keys && r.pending == {} && r.changed
    && forall n :: Live(su, n) ==> n in r.table
  }

  /** Whatever inference does and whatever the order of the sweeps, a run that stops stops in a
      table that inference, run against it, gives back for every function; entries of other
      names are as they were. */
  lemma {:induction false} ExitIsConsistent(su: Setup, callers: Callers, trace: seq<Run>)
    requires KnowsCallers(su, callers) && IsRun(su, callers, trace) && IsStart(su, trace[0])
    ensures var last := trace[|trace| - 1];
            && Tracked(su, callers, last)
            && (Exited(last) ==> Consistent(su, last.table))
            && (forall n :: !Live(su, n) ==>
                  (n in last.table <==> n in trace[0].table)
                  && (n in last.table ==> last.table[n] == trace[0].table[n]))
  {
    if |trace| > 1 {
      var shorter := trace[..|trace| - 1];
      ExitIsConsistent(su, callers, shorter);
      StepKeepsTracked(su, callers, trace[|trace| - 2], trace[|trace| - 1]);
    }
  }

  // ----- monotone inference --------------------------------------------------------------

  /** A summary as inference gives it for a function of `n` arguments. */
  ghost predicate AsInferred(s: Summary, n: nat) {
    Shaped(s, n) && !s.ret.UnknownReturn? && Leq(DefaultFor(n), s)
  }

  /** A table whose entries have the shape inference gives them. */
  ghost predicate ShapedTable(su: Setup, table: Table) {
    forall n :: Live(su, n) ==> n in table && AsInferred(table[n], su.fMap[n].body.argCount)
  }

  /** Pointwise order; entries of other names are equal. */
  ghost predicate TableLeq(su: Setup, t: Table, u: Table) {
    && t.Keys == u.Keys
    && forall n :: n in t ==> if Live(su, n) then Leq(t[n], u[n]) else t[n] == u[n]
  }

  /** Results have the shape of the function, and start from its default. */
  ghost predicate WellBehaved(su: Setup) {
    forall n, t :: Live(su, n) && ShapedTable(su, t) ==> AsInferred(InferNamed(su, n, t), su.fMap[n].body.argCount)
  }

  ghost predicate Monotone(su: Setup) {
    forall n, t, u :: Live(su, n) && ShapedTable(su, t) && ShapedTable(su, u) && TableLeq(su, t, u) ==>
      Leq(InferNamed(su, n, t), InferNamed(su, n, u))
  }

  /** Inference takes no entry of `t` out of `t`: every consistent table is one. */
  ghost predicate Closed(su: Setup, t: Table) {
    ShapedTable(su, t) && forall n :: Live(su, n) ==> Leq(InferNamed(su, n, t), t[n])
  }

  /** While the worklist runs the table only climbs, below every closed table above the start. */
  ghost predicate Climbing(su: Setup, table: Table) {
    && ShapedTable(su, table)
    && forall n :: Live(su, n) ==> Leq(table[n], InferNamed(su, n, table))
  }

  lemma RaiseTable(su: Setup, table: Table, n: Name, s: Summary)
    requires ShapedTable(su, table) && Live(su, n) && Leq(table[n], s)
    requires AsInferred(s, su.fMap[n].body.argCount)
    ensures ShapedTable(su, table[n := s]) && TableLeq(su, table, table[n := s])
  {
    forall k | k in table && k != n ensures Leq(table[k], table[n := s][k]) {
      LeqReflexive(table[k]);
    }
  }

  lemma RaiseOne(su: Setup, table: Table, n: Name)
    requires WellBehaved(su) && Monotone(su) && Climbing(su, table) && Live(su, n)
    ensures var table' := table[n := InferNamed(su, n, table)];
            Climbing(su, table') && TableLeq(su, table, table')
  {
    var table' := table[n := InferNamed(su, n, table)];
    RaiseTable(su, table, n, InferNamed(su, n, table));
    forall k | Live(su, k) ensures Leq(table'[k], InferNamed(su, k, table')) {
      assert Leq(InferNamed(su, k, table), InferNamed(su, k, table'));
      if k != n {
        LeqTransitive(table[k], InferNamed(su, k, table), InferNamed(su, k, table'));
      }
    }
  }

  lemma StaysBelow(su: Setup, table: Table, n: Name, bound: Table)
    requires Monotone(su) && ShapedTable(su, table) && Live(su, n)
    requires Closed(su, bound) && TableLeq(su, table, bound)
    ensures TableLeq(su, table[n := InferNamed(su, n, table)], bound)
  {
    assert Leq(InferNamed(su, n, table), InferNamed(su, n, bound));
    LeqTransitive(InferNamed(su, n, table), InferNamed(su, n, bound), bound[n]);
  }

  // ----- termination ---------------------------------------------------------------------

  ghost function Slack(su: Setup, m: seq<Callable>, table: Table): nat
    requires forall n :: Live(su, n) ==> n in table
  {
    if m == [] then 0
    else (if Live(su, m[0].name) then SlackOf(su, m[0].name, table) else 0) + Slack(su, m[1..], table)
  }

  ghost function SlackOf(su: Setup, n: Name, table: Table): nat
    requires Live(su, n) && n in table
  {
    var args := su.fMap[n].body.argCount;
    var top := 11 * args + 2;
    if Height(table[n], args) <= top then top - Height(table[n], args) else 0
  }

  lemma {:induction false} SlackFalls(su: Setup, m: seq<Callable>, t: Table, u: Table, n: Name)
    requires ShapedTable(su, t) && ShapedTable(su, u) && TableLeq(su, t, u)
    ensures Slack(su, m, u) <= Slack(su, m, t)
    ensures (Live(su, n) && t[n] != u[n] && exists i :: 0 <= i < |m| && m[i].name == n) ==>
              Slack(su, m, u) < Slack(su, m, t)
  {
    if m != [] {
      SlackFalls(su, m[1..], t, u, n);
      var k := m[0].name;
      if Live(su, k) {
        HeightRises(t[k], u[k], su.fMap[k].body.argCount);
        HeightRises(u[k], u[k], su.fMap[k].body.argCount) by { LeqReflexive(u[k]); }
      }
      if i :| 0 <= i < |m| && m[i].name == n {
        assert i > 0 ==> m[1..][i - 1].name == n;
      }
    }
  }

  // ----- the computation -----------------------------------------------------------------

  /** The two tables have the same entries for other names, and entries for the same names. */
  ghost predicate SameElsewhere(su: Setup, t: Table, u: Table) {
    t.Keys == u.Keys && forall n :: n in t && !Live(su, n) ==> t[n] == u[n]
  }

  /** `table` is below every closed table that agrees with `start` elsewhere. */
  ghost predicate BelowClosed(su: Setup, start: Table, table: Table) {
    forall bound :: Closed(su, bound) && SameElsewhere(su, start, bound) ==> TableLeq(su, table, bound)
  }

  ghost predicate Good(su: Setup, callers: Callers, start: Table, r: Run) {
    && WellBehaved(su) && Monotone(su)
    && Tracked(su, callers, r)
    && Climbing(su, r.table)
    && SameElsewhere(su, start, r.table)
    && BelowClosed(su, start, r.table)
  }

  lemma ProcessKeepsGood(su: Setup, callers: Callers, m: seq<Callable>, start: Table, r: Run, n: Name)
    requires Good(su, callers, start, r) && n in r.pending
    requires NamesListed(su, m)
    ensures Good(su, callers, start, Process(su, callers, r, n))
    ensures var r' := Process(su, callers, r, n);
            if r'.table == r.table then r'.changed == r.changed
            else r'.changed && Slack(su, m, r'.table) < Slack(su, m, r.table)
  {
    ProcessKeepsTracked(su, callers, r, n);
    var table' := Process(su, callers, r, n).table;
    if table' != r.table {
      RaiseOne(su, r.table, n);
      forall bound | Closed(su, bound) && SameElsewhere(su, start, bound) ensures TableLeq(su, table', bound) {
        StaysBelow(su, r.table, n, bound);
      }
      SlackFalls(su, m, r.table, table', n);
    }
  }

  ghost predicate NamesListed(su: Setup, m: seq<Callable>) {
    forall n :: Live(su, n) ==> exists i :: 0 <= i < |m| && m[i].name == n
  }

  /** A sweep that changed something leaves the entries less room to climb. */
  ghost predicate Slacked(su: Setup, m: seq<Callable>, t: Table, u: Table, changed: bool)
    requires forall n :: Live(su, n) ==> n in t && n in u
  {
    if changed then Slack(su, m, u) < Slack(su, m, t) else u == t
  }

  lemma ListedByName(m: seq<Callable>, su: Setup)
    requires su.fMap == FunctionsByName(m)
    ensures NamesListed(su, m)
  {
    forall n | Live(su, n) ensures exists i :: 0 <= i < |m| && m[i].name == n {
      var i :| 0 <= i < |m| && m[i] == su.fMap[n];
      assert m[i].name == n;
    }
  }

  lemma SweepStarts(su: Setup, callers: Callers, start: Table, table: Table, worklist: set<Name>)
    requires Good(su, callers, start, Run(table, worklist, {}, true))
    ensures Good(su, callers, start, Run(table, {}, worklist, false))
  {}

  lemma ExitIsLeast(su: Setup, callers: Callers, start: Table, table: Table, worklist: set<Name>)
    requires Good(su, callers, start, Run(table, worklist, {}, false))
    ensures ShapedTable(su, table) && Consistent(su, table) && BelowClosed(su, table, table)
  {
    forall bound | Closed(su, bound) && SameElsewhere(su, table, bound) ensures TableLeq(su, table, bound) {
      assert SameElsewhere(su, start, bound);
    }
  }

  /** The table the first sweep starts from. */
  ghost predicate Defaulted(su: Setup, table: Table) {
    DefaultedBy(su.fMap, table)
  }

  ghost predicate DefaultedBy(fMap: map<Name, Callable>, table: Table) {
    forall n :: n in fMap && !fMap[n].isExtern ==> n in table && table[n] == DefaultFor(fMap[n].body.argCount)
  }

  lemma DefaultsMore(m: seq<Callable>, i: nat, t: Table, u: Table)
    requires i < |m| && DefaultedBy(FunctionsByName(m[..i]), t)
    requires u == if m[i].isExtern then t else t[m[i].name := DefaultFor(m[i].body.argCount)]
    ensures DefaultedBy(FunctionsByName(m[..i + 1]), u)
  {
    hide DefaultFor;
    assert m[..i + 1][..i] == m[..i];
  }

  /** Entries of names that are not functions of the module are the same. */
  ghost predicate SameOutside(fMap: map<Name, Callable>, t: Table, u: Table) {
    forall n :: n !in fMap ==> (n in u <==> n in t) && (n in u ==> u[n] == t[n])
  }

  lemma StartIsGood(su: Setup, callers: Callers, table: Table)
    requires WellBehaved(su) && Monotone(su) && KnowsCallers(su, callers) && Defaulted(su, table)
    ensures Good(su, callers, table, Run(table, su.fMap.Keys, {}, true))
  {
    forall n | Live(su, n) ensures Leq(table[n], table[n]) {
      LeqReflexive(table[n]);
    }
    assert ShapedTable(su, table);
    forall bound | Closed(su, bound) && SameElsewhere(su, table, bound) ensures TableLeq(su, table, bound) {
      assert ShapedTable(su, bound);
    }
  }

  /** Every consistent table of the right shape is closed, so the least closed table that is
      consistent is the least consistent one. */
  lemma ConsistentIsClosed(su: Setup, table: Table)
    requires ShapedTable(su, table) && Consistent(su, table)
    ensures Closed(su, table)
  {
    forall n | Live(su, n) ensures Leq(InferNamed(su, n, table), table[n]) {
      assert Fresh(su, table, n);
      LeqReflexive(table[n]);
    }
  }

  /** Every consistent table of the right shape, with the same entries elsewhere, is above. */
  ghost predicate LeastConsistent(su: Setup, table: Table) {
    && ShapedTable(su, table) && Consistent(su, table)
    && forall t :: ShapedTable(su, t) && Consistent(su, t) && SameElsewhere(su, table, t) ==> TableLeq(su, table, t)
  }

  lemma LeastOfClosed(su: Setup, table: Table)
    requires ShapedTable(su, table) && Consistent(su, table) && BelowClosed(su, table, table)
    ensures LeastConsistent(su, table)
  {
    forall t | ShapedTable(su, t) && Consistent(su, t) && SameElsewhere(su, table, t) ensures TableLeq(su, table, t) {
      ConsistentIsClosed(su, t);
    }
  }

  /** Where no consistent table exists, no run stops. */
  lemma NoExitWithout(su: Setup, callers: Callers, trace: seq<Run>)
    requires KnowsCallers(su, callers) && IsRun(su, callers, trace) && IsStart(su, trace[0])
    requires forall t :: !Consistent(su, t)
    ensures !Exited(trace[|trace| - 1])
  {
    ExitIsConsistent(su, callers, trace);
  }
}
