/** What a list of actions reports when reporting is switched on. */
module MoveReports {
  import opened Mvir
  import opened Places
  import opened MoveState
  import opened MoveTransfer

  // ----- the exact set of reports --------------------------------------------------------

  function FlagSet(env: Env, at: ValueId, acts: seq<Action>, m: PlaceMap): set<Flag> {
    if acts == [] then {}
    else
      var init := acts[..|acts| - 1];
      var last := acts[|acts| - 1];
      FlagSet(env, at, init, m) + (if Flags(last, ApplyAll(env, init, m)) then {Flag(at, last.place)} else {})
  }

  lemma {:induction false} PerformAllReports(env: Env, at: ValueId, acts: seq<Action>, o: Outcome)
    ensures PerformAll(env, true, at, acts, o).flagged == o.flagged + FlagSet(env, at, acts, o.places)
    decreases |acts|
  {
    if acts != [] {
      PerformAllReports(env, at, acts[..|acts| - 1], o);
      PerformAllApplies(env, true, at, acts[..|acts| - 1], o);
    }
  }

  /** A report is raised by some action exactly where that action's check fails. */
  lemma {:induction false} FlagSetHas(env: Env, at: ValueId, acts: seq<Action>, m: PlaceMap, f: Flag)
    ensures f in FlagSet(env, at, acts, m) <==>
      exists k :: 0 <= k < |acts| && Flags(acts[k], ApplyAll(env, acts[..k], m)) && f == Flag(at, acts[k].place)
    decreases |acts|
  {
    hide ApplyAll, Flags;
    if acts != [] {
      var init := acts[..|acts| - 1];
      FlagSetHas(env, at, init, m, f);
      if f in FlagSet(env, at, init, m) {
        var k :| 0 <= k < |init| && Flags(init[k], ApplyAll(env, init[..k], m)) && f == Flag(at, init[k].place);
        assert init[..k] == acts[..k] && acts[k] == init[k];
      }
      if exists k :: 0 <= k < |acts| && Flags(acts[k], ApplyAll(env, acts[..k], m)) && f == Flag(at, acts[k].place) {
        var k :| 0 <= k < |acts| && Flags(acts[k], ApplyAll(env, acts[..k], m)) && f == Flag(at, acts[k].place);
        if k < |init| {
          assert init[..k] == acts[..k] && acts[k] == init[k];
        }
      }
    }
  }

  // ----- drops with nothing to drop ------------------------------------------------------

  /** Some check of a drop among the actions finds that there is nothing to drop. */
  ghost predicate DeadIn(env: Env, acts: seq<Action>, m: PlaceMap) {
    exists k :: 0 <= k < |acts| && FindsDeadDrop(acts[k], ApplyAll(env, acts[..k], m))
  }

  lemma DeadInSnoc(env: Env, acts: seq<Action>, m: PlaceMap)
    requires acts != []
    ensures var last := |acts| - 1;
            DeadIn(env, acts, m) <==>
              DeadIn(env, acts[..last], m) || FindsDeadDrop(acts[last], ApplyAll(env, acts[..last], m))
  {
    hide FindsDeadDrop, ApplyAll;
    var last := |acts| - 1;
    var init := acts[..last];
    assert forall k :: 0 <= k <= last ==> init[..k] == acts[..k];
    if DeadIn(env, init, m) {
      var k :| 0 <= k < |init| && FindsDeadDrop(init[k], ApplyAll(env, init[..k], m));
      assert FindsDeadDrop(acts[k], ApplyAll(env, acts[..k], m));
    }
  }

  lemma {:induction false} PerformAllFindsDead(env: Env, at: ValueId, acts: seq<Action>, o: Outcome)
    ensures PerformAll(env, true, at, acts, o).deadDrops
      == o.deadDrops + (if DeadIn(env, acts, o.places) then {at} else {})
    decreases |acts|
  {
    hide DeadIn, FindsDeadDrop;
    if acts == [] {
      NoneDead(env, o.places);
    } else {
      PerformAllFindsDead(env, at, acts[..|acts| - 1], o);
      PerformAllApplies(env, true, at, acts[..|acts| - 1], o);
      DeadInSnoc(env, acts, o.places);
    }
  }

  lemma NoneDead(env: Env, m: PlaceMap)
    ensures !DeadIn(env, [], m)
  {}
}
