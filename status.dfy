/** Group status: each successful scheduler activity that changed a group's
    size is logged in the repository. The clock reading and whether the
    repository write succeeds are parameters, one per activity. */
module Status {
  import opened Wrappers
  import opened Autoscale
  import opened Schedule

  datatype GroupStatus = GroupStatus(groupID: string, delta: int, total: int, createdAt: int)

  /** The status entry for one activity, if any. */
  function ToGroupStatus(msg: SchedulerActivity, createdAt: int): (r: Option<GroupStatus>)
    ensures r.Some? <==> msg.err.None? && msg.delta != 0
    ensures r.Some? ==> r.value == GroupStatus(msg.id, msg.delta, msg.count, createdAt)
  {
    if msg.err.None? && msg.delta != 0 then Some(GroupStatus(msg.id, msg.delta, msg.count, createdAt)) else None
  }

  /** The entries the repository holds after a run of activities: a write
      that fails is logged and otherwise dropped. */
  function Logged(msgs: seq<SchedulerActivity>, times: seq<int>, writeOk: seq<bool>): seq<GroupStatus>
    requires |times| == |msgs| && |writeOk| == |msgs|
  {
    if |msgs| == 0 then []
    else
      var n := |msgs| - 1;
      var rest := Logged(msgs[..n], times[..n], writeOk[..n]);
      match ToGroupStatus(msgs[n], times[n])
      case Some(gs) => if writeOk[n] then rest + [gs] else rest
      case None => rest
  }

  lemma LoggedSnoc(msgs: seq<SchedulerActivity>, times: seq<int>, writeOk: seq<bool>,
                   m: SchedulerActivity, t: int, ok: bool)
    requires |times| == |msgs| && |writeOk| == |msgs|
    ensures Logged(msgs + [m], times + [t], writeOk + [ok]) ==
            match ToGroupStatus(m, t)
            case Some(gs) => if ok then Logged(msgs, times, writeOk) + [gs] else Logged(msgs, times, writeOk)
            case None => Logged(msgs, times, writeOk)
  {
    assert (msgs + [m])[..|msgs|] == msgs;
    assert (times + [t])[..|msgs|] == times;
    assert (writeOk + [ok])[..|msgs|] == writeOk;
  }

  /** Every logged entry records a real change, and comes from a successful
      activity whose write succeeded; every such activity is logged. */
  lemma {:induction false} LoggedSpec(msgs: seq<SchedulerActivity>, times: seq<int>, writeOk: seq<bool>)
    requires |times| == |msgs| && |writeOk| == |msgs|
    ensures forall gs :: gs in Logged(msgs, times, writeOk) ==> gs.delta != 0
    ensures forall i :: 0 <= i < |msgs| && msgs[i].err.None? && msgs[i].delta != 0 && writeOk[i] ==>
              GroupStatus(msgs[i].id, msgs[i].delta, msgs[i].count, times[i]) in Logged(msgs, times, writeOk)
    ensures forall gs :: gs in Logged(msgs, times, writeOk) ==>
              exists i :: 0 <= i < |msgs| && writeOk[i] && msgs[i].err.None? &&
                          gs == GroupStatus(msgs[i].id, msgs[i].delta, msgs[i].count, times[i])
  {
    if |msgs| > 0 {
      var n := |msgs| - 1;
      LoggedSpec(msgs[..n], times[..n], writeOk[..n]);
      assert msgs == msgs[..n] + [msgs[n]];
      assert times == times[..n] + [times[n]];
      assert writeOk == writeOk[..n] + [writeOk[n]];
      LoggedSnoc(msgs[..n], times[..n], writeOk[..n], msgs[n], times[n], writeOk[n]);
      forall i | 0 <= i < n
        ensures msgs[..n][i] == msgs[i] && times[..n][i] == times[i] && writeOk[..n][i] == writeOk[i]
      {
      }
    }
  }

  class StatusLog {
    /** The group statuses the repository holds. */
    var logged: seq<GroupStatus>

    constructor ()
      ensures logged == []
    {
      logged := [];
    }

    /** The listener loop over the activities received. */
    method Start(msgs: seq<SchedulerActivity>, times: seq<int>, writeOk: seq<bool>)
      requires |times| == |msgs| && |writeOk| == |msgs|
      modifies this
      ensures logged == old(logged) + Logged(msgs, times, writeOk)
    {
      var i := 0;
      while i < |msgs|
        invariant 0 <= i <= |msgs|
        invariant logged == old(logged) + Logged(msgs[..i], times[..i], writeOk[..i])
      {
        LoggedSnoc(msgs[..i], times[..i], writeOk[..i], msgs[i], times[i], writeOk[i]);
        assert msgs[..i + 1] == msgs[..i] + [msgs[i]];
        assert times[..i + 1] == times[..i] + [times[i]];
        assert writeOk[..i + 1] == writeOk[..i] + [writeOk[i]];
        var msg := msgs[i];
        if msg.err.None? && msg.delta != 0 {
          var gs := GroupStatus(msg.id, msg.delta, msg.count, times[i]);
          if writeOk[i] {
            logged := logged + [gs];
          }
        }
        i := i + 1;
      }
      assert msgs[..i] == msgs && times[..i] == times && writeOk[..i] == writeOk;
    }
  }
}
