/** The monitor's reconcile step: on each tick it sends an enable message for
    every listed group that is not running, then removes from the run list,
    and sends a disable message for, every running ID no longer listed.
    The scheduler's channels become the two sequences of IDs a tick emits. */
module Monitor {
  import opened Wrappers
  import opened Autoscale
  import opened RunList

  /** Whether `a` is one of the strings in `list`. */
  method StringInSlice(a: string, list: seq<string>) returns (found: bool)
    ensures found <==> a in list
  {
    for i := 0 to |list|
      invariant a !in list[..i]
    {
      if list[i] == a {
        return true;
      }
    }
    return false;
  }

  /** The IDs of `groups`, in listing order. */
  function Ids(groups: seq<Group>): (ids: seq<string>)
    ensures |ids| == |groups|
    ensures forall i :: 0 <= i < |ids| ==> ids[i] == groups[i].id
  {
    if groups == [] then [] else [groups[0].id] + Ids(groups[1..])
  }

  /** The enable messages of a tick: every listed ID not running, in listing
      order. The run list does not change during this pass, so an ID listed
      twice is sent twice. */
  function ToEnable(running: set<string>, ids: seq<string>): (enabled: seq<string>)
    ensures |enabled| <= |ids|
  {
    if ids == [] then []
    else
      var init, x := ids[..|ids| - 1], ids[|ids| - 1];
      ToEnable(running, init) + (if x in running then [] else [x])
  }

  /** Enable messages go exactly to the listed IDs that are not running. */
  lemma {:induction false} ToEnableSpec(running: set<string>, ids: seq<string>)
    ensures forall x :: x in ToEnable(running, ids) <==> x in ids && x !in running
  {
    if ids != [] {
      var init, x := ids[..|ids| - 1], ids[|ids| - 1];
      ToEnableSpec(running, init);
      assert ids == init + [x];
    }
  }

  lemma ToEnableSnoc(running: set<string>, ids: seq<string>, x: string)
    ensures ToEnable(running, ids + [x]) == ToEnable(running, ids) + (if x in running then [] else [x])
  {
    assert (ids + [x])[..|ids|] == ids;
  }

  /** What one tick does, with the order of the disable messages (that of
      the run list's listing) left open. */
  datatype TickOutcome = TickOutcome(enabled: seq<string>, disabled: set<string>)

  /** One tick from run list `running`: its messages and the run list after it. */
  function Reconcile(running: set<string>, listing: Result<seq<Group>, Error>): (r: (TickOutcome, set<string>))
    ensures listing.Failure? ==> r == (TickOutcome([], {}), running)
    ensures r.1 <= running
    ensures r.0.disabled !! r.1 && r.0.disabled + r.1 == running
  {
    match listing
    case Failure(_) => (TickOutcome([], {}), running)
    case Success(groups) =>
      var ids := Ids(groups);
      (TickOutcome(ToEnable(running, ids), running - Elements(ids)), running * Elements(ids))
  }

  /** A reconcile never adds to the run list, and an ID both listed and
      running stays running and is not disabled. */
  lemma ReconcileKeepsListed(running: set<string>, groups: seq<Group>, id: string)
    requires id in running && id in Ids(groups)
    ensures id in Reconcile(running, Success(groups)).1
    ensures id !in Reconcile(running, Success(groups)).0.disabled
  {
  }

  class Monitor {
    var runList: MemoryRunList

    constructor ()
      ensures fresh(runList) && runList.dict == map[]
    {
      runList := new MemoryRunList();
    }

    /** The first pass of a tick: the listed IDs, and the enable messages for
        those not running. */
    method EnablePass(groups: seq<Group>) returns (groupIDs: seq<string>, enabled: seq<string>)
      ensures groupIDs == Ids(groups)
      ensures enabled == ToEnable(runList.dict.Keys, groupIDs)
    {
      groupIDs, enabled := [], [];
      ghost var running := runList.dict.Keys;
      ghost var ids := Ids(groups);
      for i := 0 to |groups|
        invariant groupIDs == ids[..i]
        invariant enabled == ToEnable(running, groupIDs)
      {
        var id := groups[i].id;
        assert ids[i] == id;
        assert ids[..i + 1] == groupIDs + [id];
        ToEnableSnoc(running, groupIDs, id);
        groupIDs := groupIDs + [id];
        if !runList.IsRunning(id) {
          enabled := enabled + [id];
        }
      }
      assert ids[..|groups|] == ids;
    }

    /** The second pass of a tick: every ID of `listed` that is not in
        `groupIDs` is removed from the run list and sent a disable message. */
    method DisablePass(listed: seq<string>, groupIDs: seq<string>) returns (disabled: seq<string>)
      requires NoDuplicates(listed)
      modifies runList
      ensures NoDuplicates(disabled)
      ensures Elements(disabled) == Elements(listed) - Elements(groupIDs)
      ensures runList.dict == old(runList.dict) - Elements(disabled)
    {
      disabled := [];
      for i := 0 to |listed|
        invariant runList.dict == old(runList.dict) - Elements(disabled)
        invariant Elements(disabled) == Elements(listed[..i]) - Elements(groupIDs)
        invariant NoDuplicates(disabled)
        invariant forall x :: x in disabled ==> x in listed[..i]
      {
        assert listed[..i + 1] == listed[..i] + [listed[i]];
        ElementsSnoc(listed[..i], listed[i]);
        var found := StringInSlice(listed[i], groupIDs);
        if !found {
          assert listed[i] !in listed[..i];
          ElementsSnoc(disabled, listed[i]);
          var _ := runList.Remove(listed[i]);
          disabled := disabled + [listed[i]];
        }
      }
      assert listed[..|listed|] == listed;
    }

    /** One timer tick with the given result of listing the groups. */
    method Tick(listing: Result<seq<Group>, Error>) returns (enabled: seq<string>, disabled: seq<string>)
      modifies runList
      ensures NoDuplicates(disabled)
      ensures var (outcome, after) := Reconcile(old(runList.dict.Keys), listing);
              enabled == outcome.enabled && Elements(disabled) == outcome.disabled && runList.dict.Keys == after
      ensures runList.dict == old(runList.dict) - Elements(disabled)
    {
      enabled, disabled := [], [];
      if listing.Failure? {
        return;
      }
      // add groups from the datastore
      var groupIDs;
      groupIDs, enabled := EnablePass(listing.value);
      // remove groups that no longer exist in the datastore
      var listed := runList.List();
      assert Elements(listed) == runList.dict.Keys;
      disabled := DisablePass(listed, groupIDs);
    }

    /** The monitor's loop over successive ticks, re-arming its timer after
      every tick, failed or not; quitting ends the sequence. */
    method Run(ticks: seq<Result<seq<Group>, Error>>) returns (outcomes: seq<TickOutcome>)
      modifies runList
      ensures outcomes == RunTicks(old(runList.dict.Keys), ticks)
    {
      outcomes := [];
      for i := 0 to |ticks|
        invariant outcomes + RunTicks(runList.dict.Keys, ticks[i..]) == RunTicks(old(runList.dict.Keys), ticks)
      {
        assert ticks[i..] == [ticks[i]] + ticks[i + 1..];
        var enabled, disabled := Tick(ticks[i]);
        outcomes := outcomes + [TickOutcome(enabled, Elements(disabled))];
      }
    }
  }

  /** Every tick reconciles, whatever happened on the ticks before it. */
  function RunTicks(running: set<string>, ticks: seq<Result<seq<Group>, Error>>): (outcomes: seq<TickOutcome>)
    ensures |outcomes| == |ticks|
    decreases |ticks|
  {
    if ticks == [] then []
    else
      var (outcome, after) := Reconcile(running, ticks[0]);
      [outcome] + RunTicks(after, ticks[1..])
  }

  /** A failed listing is a tick with no messages, and later ticks proceed
      as if it had not happened. */
  lemma FailedTickIsSkipped(running: set<string>, e: Error, rest: seq<Result<seq<Group>, Error>>)
    ensures RunTicks(running, [Failure(e)] + rest) == [TickOutcome([], {})] + RunTicks(running, rest)
  {
    assert ([Failure(e)] + rest)[1..] == rest;
  }

  /** The ticks as the source handles them: a failed listing `continue`s past
      `timer.Reset`, so the timer never fires again and no later tick runs. */
  function RunTicksAsWritten(running: set<string>, ticks: seq<Result<seq<Group>, Error>>): seq<TickOutcome>
    decreases |ticks|
  {
    if ticks == [] then []
    else if ticks[0].Failure? then []
    else
      var (outcome, after) := Reconcile(running, ticks[0]);
      [outcome] + RunTicksAsWritten(after, ticks[1..])
  }

  /** After one failed listing nothing is ever reconciled again. */
  lemma RunTicksAsWrittenStalls(running: set<string>, e: Error, rest: seq<Result<seq<Group>, Error>>)
    ensures RunTicksAsWritten(running, [Failure(e)] + rest) == []
  {
  }

  /** A first tick that lists one new group enables it. */
  lemma OneNewGroupEnabled()
    ensures Reconcile({}, Success([Group("1", "g1")])).0 == TickOutcome(["1"], {})
  {
    assert Ids([Group("1", "g1")]) == ["1"];
    assert [] + ["1"] == ["1"];
    ToEnableSnoc({}, [], "1");
  }

  /** A failed listing followed by a listing of group "1": the source never
      sends the enable message for it; the corrected loop does. */
  lemma StallExample(e: Error)
    ensures RunTicksAsWritten({}, [Failure(e), Success([Group("1", "g1")])]) == []
    ensures RunTicks({}, [Failure(e), Success([Group("1", "g1")])])
            == [TickOutcome([], {}), TickOutcome(["1"], {})]
  {
    var l: Result<seq<Group>, Error> := Success([Group("1", "g1")]);
    assert [Failure(e), l] == [Failure(e)] + [l];
    FailedTickIsSkipped({}, e, [l]);
    OneNewGroupEnabled();
    assert [l][1..] == [];
    assert RunTicks({}, [l]) == [TickOutcome(["1"], {})];
  }

  /** The monitor tests: three new groups are enabled in listing order, and
      a running ID no longer listed is disabled and leaves the run list. */
  lemma EnableExample()
    ensures Reconcile({}, Success([Group("1", ""), Group("2", ""), Group("3", "")])).0.enabled == ["1", "2", "3"]
  {
    assert Ids([Group("1", ""), Group("2", ""), Group("3", "")]) == ["1", "2", "3"];
    assert [] + ["1"] == ["1"] && ["1"] + ["2"] == ["1", "2"] && ["1", "2"] + ["3"] == ["1", "2", "3"];
    ToEnableSnoc({}, [], "1");
    assert ToEnable({}, ["1"]) == ["1"];
    ToEnableSnoc({}, ["1"], "2");
    assert ToEnable({}, ["1", "2"]) == ["1", "2"];
    ToEnableSnoc({}, ["1", "2"], "3");
  }

  lemma DisableExample()
    ensures Reconcile({"1", "2", "3"}, Success([Group("1", ""), Group("2", "")]))
            == (TickOutcome([], {"3"}), {"1", "2"})
  {
    var running := {"1", "2", "3"};
    assert Ids([Group("1", ""), Group("2", "")]) == ["1", "2"];
    assert [] + ["1"] == ["1"] && ["1"] + ["2"] == ["1", "2"];
    ToEnableSnoc(running, [], "1");
    assert ToEnable(running, ["1"]) == [];
    ToEnableSnoc(running, ["1"], "2");
    assert Elements(["1", "2"]) == {"1", "2"};
    var r := Reconcile(running, Success([Group("1", ""), Group("2", "")]));
    assert r.0.enabled == [];
    assert r.0.disabled == {"3"};
    assert r.1 == {"1", "2"};
  }
}
