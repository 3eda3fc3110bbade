/**
 * The step of `main` between the two fetchers: the set of every truthy
 * `plnPointId` among the fetched contracts' units, which is what the plan
 * fetcher is asked for.
 */
module PlanIds {
  import opened Records
  import PlanFetch

  /** The truthy `plnPointId`s of some units. */
  function UnitIds(units: seq<Unit>): set<int>
  {
    if units == [] then {}
    else
      var u := Last(units);
      UnitIds(units[..|units| - 1]) + (if Truthy(u.plnPointId) then {u.plnPointId.value} else {})
  }

  /** The truthy `plnPointId`s of all the contracts' units. */
  function ReferencedIds(contracts: seq<Contract>): set<int>
  {
    if contracts == [] then {} else ReferencedIds(contracts[..|contracts| - 1]) + UnitIds(Last(contracts).units)
  }

  /** The nested loop of `main` that fills `all_plan_ids`. */
  method CollectPlanIds(contracts: seq<Contract>) returns (ids: set<int>)
    ensures ids == ReferencedIds(contracts)
  {
    ids := {};
    for i := 0 to |contracts|
      invariant ids == ReferencedIds(contracts[..i])
    {
      var units := contracts[i].units;
      var before := ids;
      for j := 0 to |units|
        invariant ids == before + UnitIds(units[..j])
      {
        var plnId := units[j].plnPointId;
        assert units[..j + 1][..j] == units[..j];
        if plnId.Some? && plnId.value != 0 {
          ids := ids + {plnId.value};
        }
      }
      assert units[..|units|] == units;
      assert contracts[..i + 1][..i] == contracts[..i];
    }
    assert contracts[..|contracts|] == contracts;
  }

  lemma {:induction false} UnitIdsMembers(units: seq<Unit>, x: int)
    ensures x in UnitIds(units) <==> exists j :: 0 <= j < |units| && units[j].plnPointId == Some(x) && x != 0
  {
    if units != [] {
      var init := units[..|units| - 1];
      UnitIdsMembers(init, x);
      if x in UnitIds(init) {
        var j :| 0 <= j < |init| && init[j].plnPointId == Some(x) && x != 0;
        assert units[j] == init[j];
      }
      if exists j :: 0 <= j < |units| && units[j].plnPointId == Some(x) && x != 0 {
        var j :| 0 <= j < |units| && units[j].plnPointId == Some(x) && x != 0;
        if j < |init| {
          assert init[j] == units[j];
        }
      }
    }
  }

  /** An id is collected exactly when some unit of some contract carries it
      as a truthy `plnPointId`; so 0 is never collected. */
  lemma {:induction false} ReferencedIdsMembers(contracts: seq<Contract>, x: int)
    ensures x in ReferencedIds(contracts) <==>
      exists i, j :: 0 <= i < |contracts| && 0 <= j < |contracts[i].units|
                  && contracts[i].units[j].plnPointId == Some(x) && x != 0
  {
    if contracts != [] {
      var init := contracts[..|contracts| - 1];
      var n := |init|;
      ReferencedIdsMembers(init, x);
      UnitIdsMembers(contracts[n].units, x);
      if x in ReferencedIds(init) {
        var i, j :| 0 <= i < |init| && 0 <= j < |init[i].units| && init[i].units[j].plnPointId == Some(x) && x != 0;
        assert contracts[i] == init[i];
      }
      if x in UnitIds(contracts[n].units) {
        var j :| 0 <= j < |contracts[n].units| && contracts[n].units[j].plnPointId == Some(x) && x != 0;
        assert contracts[n].units[j].plnPointId == Some(x);
      }
      if exists i, j :: 0 <= i < |contracts| && 0 <= j < |contracts[i].units|
                     && contracts[i].units[j].plnPointId == Some(x) && x != 0 {
        var i, j :| 0 <= i < |contracts| && 0 <= j < |contracts[i].units|
                 && contracts[i].units[j].plnPointId == Some(x) && x != 0;
        if i < n {
          assert init[i] == contracts[i];
        }
      }
    }
  }

  /** Every unit that could resolve asks for its id: a truthy `plnPointId`
      is among the ids sent to the plan fetcher. */
  lemma EveryTruthyIdIsRequested(contracts: seq<Contract>, i: nat, j: nat)
    requires i < |contracts| && j < |contracts[i].units|
    requires Truthy(contracts[i].units[j].plnPointId)
    ensures contracts[i].units[j].plnPointId.value in ReferencedIds(contracts)
  {
    ReferencedIdsMembers(contracts, contracts[i].units[j].plnPointId.value);
  }

  /** `main` skips the plan fetch when no id was collected and uses an empty
      table; fetching an empty id list would give the same table without a
      single request. */
  lemma NoIdsNoRequests(script: seq<Reply<Plan>>)
    ensures var o := PlanFetch.BatchesRun(PlanFetch.Chunks([]), script);
      o.sent == [] && o.ending == PlanFetch.Finished && PlanFetch.PlanTable(o.plans) == map[]
  {
  }
}
